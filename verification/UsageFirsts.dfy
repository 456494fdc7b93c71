/**
 What the flags of a day say. The counter remembers one week and one month, those of the day it
 opened last; over a run with a clock that does not go back that is enough to flag exactly the first day it
 opened in each week, and in each month, since the switch was last off.
 */
module UsageFirsts {
  import opened Options
  import opened UsageDays
  import opened UsageLedger

  /** Step `n` opens a day: it counts, and its date has no day yet. */
  predicate OpensDay(app: App, run: seq<Timed>, n: nat) {
    && n < |run| && Opens(run[n])
    && var days := After(app, run[..n]).days;
       IndexOf(days, DateOf(run[n].at)) == |days|
  }

  /** No step from `m` until before `n` finds the switch off. */
  predicate OnSince(run: seq<Timed>, m: nat, n: nat)
    requires m <= n <= |run|
  {
    forall k :: m <= k < n ==> run[k].action.Forget? || run[k].enabled
  }

  /** Step `m` opened a day in the week, or month, of a date, and the switch stayed on until before step `n`. */
  predicate OpenedIn(app: App, run: seq<Timed>, m: nat, n: nat, part: int -> int, date: int) {
    && m < n <= |run| && OpensDay(app, run, m) && OnSince(run, m, n)
    && part(DateOf(run[m].at)) == part(date)
  }

  ghost predicate OpenedBefore(app: App, run: seq<Timed>, n: nat, part: int -> int, date: int) {
    exists m: nat :: OpenedIn(app, run, m, n, part, date)
  }

  /** The flags of a day that step `n` opened: no earlier step opened one in its week, or in its month. */
  ghost predicate FlagsTell(app: App, run: seq<Timed>, n: nat, day: Record) {
    && (day.firstThisWeek <==> !OpenedBefore(app, run, n, app.week, day.date))
    && (day.firstThisMonth <==> !OpenedBefore(app, run, n, app.month, day.date))
  }

  // ---------------------------------------------------------------------------------------------
  // The last day opened

  /** The last step that opened a day since the switch was off. */
  function LastOpening(app: App, run: seq<Timed>): (last: Option<nat>)
    ensures last.Some? ==> last.value < |run|
  {
    if run == [] then None
    else
      var n := |run| - 1;
      var before := LastOpening(app, run[..n]);
      if run[n].action.Forget? then before
      else if !run[n].enabled then None
      else if OpensDay(app, run, n) then Some(n)
      else before
  }

  lemma PrefixOpens(app: App, run: seq<Timed>, n: nat, m: nat)
    requires m < n <= |run|
    ensures OpensDay(app, run[..n], m) <==> OpensDay(app, run, m)
    ensures OnSince(run[..n], m, n) <==> OnSince(run, m, n)
  {
    assert run[..n][..m] == run[..m];
    assert forall k :: 0 <= k < n ==> run[..n][k] == run[k];
  }

  /** It is one, and no other comes after it. */
  lemma {:induction false} LastOpeningIsLast(app: App, run: seq<Timed>)
    ensures var last := LastOpening(app, run);
            && (last.Some? ==> OpensDay(app, run, last.value) && OnSince(run, last.value, |run|))
            && forall m: nat :: m < |run| && OpensDay(app, run, m) && OnSince(run, m, |run|) ==>
                 last.Some? && m <= last.value
  {
    hide OpensDay;
    if run != [] {
      var n := |run| - 1;
      LastOpeningIsLast(app, run[..n]);
      var before, last := LastOpening(app, run[..n]), LastOpening(app, run);
      if before.Some? {
        PrefixOpens(app, run, n, before.value);
      }
      forall m: nat | m < |run| && OpensDay(app, run, m) && OnSince(run, m, |run|)
        ensures last.Some? && m <= last.value
      {
        if m < n {
          PrefixOpens(app, run, n, m);
        }
        OnlyOpensWhenOn(app, run, m);
      }
    }
  }

  lemma OnlyOpensWhenOn(app: App, run: seq<Timed>, m: nat)
    requires OpensDay(app, run, m)
    ensures run[m].enabled && !run[m].action.Forget?
  {
  }

  /** The last week and month are those of the last day opened, with any clock. */
  lemma {:induction false} LastWeekAndMonth(app: App, run: seq<Timed>)
    ensures var last, s := LastOpening(app, run), After(app, run);
            if last.None? then s.lastWeek == None && s.lastMonth == None
            else var date := DateOf(run[last.value].at);
                 s.lastWeek == Some(app.week(date)) && s.lastMonth == Some(app.month(date))
  {
    hide Newest, Between;
    if run != [] {
      LastWeekAndMonth(app, run[..|run| - 1]);
    }
  }

  /** With an ordered clock the last day opened tells whether any was opened in a week, or in a month. */
  lemma LastOpeningTells(app: App, run: seq<Timed>, part: int -> int, date: int)
    requires Ordered(run) && (run != [] ==> DateOf(run[|run| - 1].at) <= date)
    requires forall one, other :: one <= other ==> part(one) <= part(other)
    ensures var last := LastOpening(app, run);
            OpenedBefore(app, run, |run|, part, date)
            <==> last.Some? && part(DateOf(run[last.value].at)) == part(date)
  {
    hide OpensDay, OnSince;
    LastOpeningIsLast(app, run);
    var last := LastOpening(app, run);
    if OpenedBefore(app, run, |run|, part, date) {
      var m: nat :| OpenedIn(app, run, m, |run|, part, date);
      var then_, latest := DateOf(run[m].at), DateOf(run[last.value].at);
      assert then_ <= latest <= date;
      assert part(then_) <= part(latest) <= part(date);
    }
    if last.Some? && part(DateOf(run[last.value].at)) == part(date) {
      assert OpenedIn(app, run, last.value, |run|, part, date);
    }
  }

  // ---------------------------------------------------------------------------------------------
  // The flags

  lemma PrefixOpenedBefore(app: App, run: seq<Timed>, n: nat, k: nat, part: int -> int, date: int)
    requires n <= k <= |run|
    ensures OpenedBefore(app, run[..k], n, part, date) <==> OpenedBefore(app, run, n, part, date)
  {
    hide OpensDay;
    forall m: nat | m < n
      ensures OpenedIn(app, run[..k], m, n, part, date) <==> OpenedIn(app, run, m, n, part, date)
    {
      PrefixOpens(app, run, k, m);
      assert forall i :: 0 <= i < k ==> run[..k][i] == run[i];
    }
  }

  lemma PrefixFlags(app: App, run: seq<Timed>, n: nat, k: nat, day: Record)
    requires n <= k <= |run|
    ensures FlagsTell(app, run[..k], n, day) <==> FlagsTell(app, run, n, day)
  {
    hide OpenedBefore;
    PrefixOpenedBefore(app, run, n, k, app.week, day.date);
    PrefixOpenedBefore(app, run, n, k, app.month, day.date);
  }

  lemma OpenedDayTells(app: App, run: seq<Timed>, n: nat)
    requires InOrder(app) && Ordered(run) && OpensDay(app, run, n)
    ensures FlagsTell(app, run, n, NewDay(app, After(app, run[..n]), DateOf(run[n].at)))
  {
    hide OpenedBefore, After;
    var date := DateOf(run[n].at);
    LastWeekAndMonth(app, run[..n]);
    LastOpeningTells(app, run[..n], app.week, date);
    LastOpeningTells(app, run[..n], app.month, date);
    PrefixOpenedBefore(app, run, n, n, app.week, date);
    PrefixOpenedBefore(app, run, n, n, app.month, date);
  }

  /** Two records of one day: they differ in what was counted at most. */
  predicate SameDay(day: Record, other: Record) {
    day.date == other.date && day.firstThisWeek == other.firstThisWeek && day.firstThisMonth == other.firstThisMonth
  }

  /** A step that opens a day puts it last. */
  lemma OpeningPutsLast(app: App, s: State, e: Timed)
    requires Opens(e) && IndexOf(s.days, DateOf(e.at)) == |s.days|
    ensures var days := Step(app, s, e).days;
            days != [] && SameDay(days[|days| - 1], NewDay(app, s, DateOf(e.at)))
  {
    hide Newest, Between;
    NewestEndsWith(s.days, DateOf(e.at) - (KEPT_DAYS - 1), NewDay(app, s, DateOf(e.at)));
  }

  /** A day is flagged as the first of its week, or month, exactly when it is the first the counter opened in it. */
  lemma FlaggedIffFirst(app: App, run: seq<Timed>, n: nat)
    requires InOrder(app) && Ordered(run) && OpensDay(app, run, n)
    ensures var days := After(app, run[..n + 1]).days;
            && days != [] && days[|days| - 1].date == DateOf(run[n].at)
            && FlagsTell(app, run, n, days[|days| - 1])
  {
    hide OpenedBefore, Step;
    assert run[..n + 1][..n] == run[..n];
    OpeningPutsLast(app, After(app, run[..n]), run[n]);
    OpenedDayTells(app, run, n);
  }

  // ---------------------------------------------------------------------------------------------
  // Every day kept

  /** Step `n` opened this day, the switch stayed on since, and its flags tell. */
  ghost predicate OpenedBy(app: App, run: seq<Timed>, n: nat, day: Record) {
    && n < |run| && OpensDay(app, run, n) && OnSince(run, n, |run|)
    && DateOf(run[n].at) == day.date && FlagsTell(app, run, n, day)
  }

  ghost predicate Told(app: App, run: seq<Timed>, day: Record) {
    exists n: nat :: OpenedBy(app, run, n, day)
  }

  /** The days after a step are days from before it, with other counts perhaps, and the one it opens. */
  lemma DaysStay(app: App, s: State, e: Timed, i: nat)
    requires i < |Step(app, s, e).days|
    ensures e.action.Forget? || e.enabled
    ensures var day := Step(app, s, e).days[i];
            || (exists other :: other in s.days && SameDay(day, other))
            || (Opens(e) && IndexOf(s.days, DateOf(e.at)) == |s.days| && SameDay(day, NewDay(app, s, DateOf(e.at))))
  {
    hide Newest, Between, Without;
    if e.action.Forget? {
      WithoutThins(s.days, e.action.dates);
      assert SameDay(Step(app, s, e).days[i], Step(app, s, e).days[i]);
    } else if e.enabled {
      var more := Open(app, s, DateOf(e.at)).days;
      assert SameDay(Step(app, s, e).days[i], if Opens(e) then more[i] else s.days[i]);
      OpenedDaysStay(app, s, DateOf(e.at));
    }
  }

  lemma OpenedDaysStay(app: App, s: State, date: int)
    ensures forall day :: day in Open(app, s, date).days ==>
              day in s.days || (IndexOf(s.days, date) == |s.days| && day == NewDay(app, s, date))
  {
    hide Between;
    BetweenThins(s.days, date - (KEPT_DAYS - 1), date);
  }

  /** Over any run every day the counter keeps was opened by one step since the switch was off, and its flags tell. */
  lemma {:induction false} KeptDaysTell(app: App, run: seq<Timed>)
    requires InOrder(app) && Ordered(run)
    ensures forall day :: day in After(app, run).days ==> Told(app, run, day)
  {
    hide Step, Told;
    if run != [] {
      var n := |run| - 1;
      var s := After(app, run[..n]);
      KeptDaysTell(app, run[..n]);
      forall day | day in After(app, run).days ensures Told(app, run, day) {
        var i :| 0 <= i < |After(app, run).days| && After(app, run).days[i] == day;
        DaysStay(app, s, run[n], i);
        if other :| other in s.days && SameDay(day, other) {
          StillTold(app, run, day, other);
        } else {
          NewlyTold(app, run, day);
        }
      }
    }
  }

  lemma StillTold(app: App, run: seq<Timed>, day: Record, other: Record)
    requires run != [] && Told(app, run[..|run| - 1], other) && SameDay(day, other)
    requires run[|run| - 1].action.Forget? || run[|run| - 1].enabled
    ensures Told(app, run, day)
  {
    hide OpensDay, OpenedBefore;
    var k := |run| - 1;
    var n: nat :| OpenedBy(app, run[..k], n, other);
    PrefixOpens(app, run, k, n);
    PrefixFlags(app, run, n, k, other);
    assert OpenedBy(app, run, n, day);
  }

  lemma NewlyTold(app: App, run: seq<Timed>, day: Record)
    requires InOrder(app) && Ordered(run) && run != [] && OpensDay(app, run, |run| - 1)
    requires var n := |run| - 1;
             SameDay(day, NewDay(app, After(app, run[..n]), DateOf(run[n].at)))
    ensures Told(app, run, day)
  {
    hide OpenedBefore;
    OpenedDayTells(app, run, |run| - 1);
    OnlyOpensWhenOn(app, run, |run| - 1);
    assert OpenedBy(app, run, |run| - 1, day);
  }

  // ---------------------------------------------------------------------------------------------
  // What a kept day holds

  predicate SignsIn(e: Timed, date: int) {
    e.enabled && e.action == NoteSignedIn(true) && DateOf(e.at) == date
  }

  predicate Calls(e: Timed, date: int, counter: string) {
    e.enabled && e.action == Count(counter) && DateOf(e.at) == date
  }

  /** How often a counter was counted on a date, from step `n` on. */
  function CallsOn(run: seq<Timed>, n: nat, date: int, counter: string): nat
    requires n <= |run|
    decreases |run|
  {
    if |run| == n then 0
    else
      var before := CallsOn(run[..|run| - 1], n, date, counter);
      if Calls(run[|run| - 1], date, counter) then before + 1 else before
  }

  /** Step `n` was the last to open a day of this date, and the day holds what was counted on it since. */
  ghost predicate HoldsFrom(app: App, run: seq<Timed>, n: nat, day: Record) {
    && n < |run| && OpensDay(app, run, n) && OnSince(run, n, |run|)
    && (forall m: nat :: n <= m < |run| && OpensDay(app, run, m) && DateOf(run[m].at) == day.date ==> m == n)
    && DateOf(run[n].at) == day.date && day.version == app.version
    && (forall counter :: CountOf(day, counter) == CallsOn(run, n, day.date, counter))
    && (day.signedIn <==> exists m: nat :: n <= m < |run| && SignsIn(run[m], day.date))
  }

  ghost predicate Filled(app: App, run: seq<Timed>, day: Record) {
    exists n: nat :: HoldsFrom(app, run, n, day)
  }

  /** A step adds to a day what it counts on its date, and changes nothing else of it. */
  ghost predicate Adds(e: Timed, other: Record, day: Record) {
    && day.date == other.date && day.version == other.version
    && (forall counter ::
          CountOf(day, counter) == CountOf(other, counter) + if Calls(e, day.date, counter) then 1 else 0)
    && (day.signedIn <==> other.signedIn || SignsIn(e, day.date))
  }

  lemma DaysAdd(app: App, s: State, e: Timed, i: nat)
    requires Windowed(s.days) && i < |Step(app, s, e).days|
    ensures e.action.Forget? || e.enabled
    ensures var day := Step(app, s, e).days[i];
            || (exists other :: other in s.days && Adds(e, other, day))
            || (Opens(e) && IndexOf(s.days, DateOf(e.at)) == |s.days| && Adds(e, NewDay(app, s, DateOf(e.at)), day))
  {
    hide Newest, Between, Without, IndexOf, Open;
    var day := Step(app, s, e).days[i];
    if e.action.Forget? {
      WithoutThins(s.days, e.action.dates);
      assert Adds(e, day, day);
    } else if e.enabled {
      var date := DateOf(e.at);
      if Opens(e) {
        var more := Open(app, s, date).days;
        OpenKeepsWindow(app, s, date);
        OpenedDaysStay(app, s, date);
        assert more[i].date == date <==> i == IndexOf(more, date);
        assert Adds(e, more[i], day);
      } else {
        assert Adds(e, day, day);
      }
    }
  }

  /** Over any run, with any clock: every kept day holds exactly what was counted on its date since it was opened. */
  lemma {:induction false} KeptDaysHold(app: App, run: seq<Timed>)
    ensures forall day :: day in After(app, run).days ==> Filled(app, run, day)
  {
    hide Step, Filled, Adds;
    if run != [] {
      var n := |run| - 1;
      var s := After(app, run[..n]);
      KeptDaysHold(app, run[..n]);
      KeptDaysAreAWindow(app, run[..n]);
      forall day | day in After(app, run).days ensures Filled(app, run, day) {
        var i :| 0 <= i < |After(app, run).days| && After(app, run).days[i] == day;
        DaysAdd(app, s, run[n], i);
        if other :| other in s.days && Adds(run[n], other, day) {
          StillFilled(app, run, day, other);
        } else {
          NewlyFilled(app, run, day);
        }
      }
    }
  }

  lemma StillFilled(app: App, run: seq<Timed>, day: Record, other: Record)
    requires run != [] && other in After(app, run[..|run| - 1]).days
    requires Filled(app, run[..|run| - 1], other) && Adds(run[|run| - 1], other, day)
    requires run[|run| - 1].action.Forget? || run[|run| - 1].enabled
    ensures Filled(app, run, day)
  {
    hide After, IndexOf;
    var k := |run| - 1;
    var n: nat :| HoldsFrom(app, run[..k], n, other);
    PrefixOpens(app, run, k, n);
    forall m: nat | n <= m < |run| && OpensDay(app, run, m) && DateOf(run[m].at) == day.date ensures m == n {
      if m < k {
        PrefixOpens(app, run, k, m);
      }
    }
    SignedSince(run, n, day.date);
    assert HoldsFrom(app, run, n, day);
  }

  lemma SignedSince(run: seq<Timed>, n: nat, date: int)
    requires n < |run|
    ensures var k := |run| - 1;
            (exists m: nat :: n <= m < |run| && SignsIn(run[m], date))
            <==> (exists m: nat :: n <= m < k && SignsIn(run[..k][m], date)) || SignsIn(run[k], date)
  {
    var k := |run| - 1;
    forall m: nat | n <= m < k ensures SignsIn(run[..k][m], date) <==> SignsIn(run[m], date) {
      assert run[..k][m] == run[m];
    }
  }

  lemma NewlyFilled(app: App, run: seq<Timed>, day: Record)
    requires run != [] && OpensDay(app, run, |run| - 1)
    requires var n := |run| - 1;
             Adds(run[n], NewDay(app, After(app, run[..n]), DateOf(run[n].at)), day)
    ensures Filled(app, run, day)
  {
    hide After, IndexOf;
    var n := |run| - 1;
    OnlyOpensWhenOn(app, run, n);
    SignedSince(run, n, day.date);
    assert forall counter :: CountOf(NewDay(app, After(app, run[..n]), day.date), counter) == 0;
    assert forall counter :: CallsOn(run[..n], n, day.date, counter) == 0;
    assert forall counter :: CountOf(day, counter) == CallsOn(run, n, day.date, counter);
    assert HoldsFrom(app, run, n, day);
  }
}
