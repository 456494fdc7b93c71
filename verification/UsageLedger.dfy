/**
 The ledger: every day opened since the switch last came on, in the order of opening, whether or
 not the app still keeps it. `LedgerOf` never forgets and has no window and no last week or month;
 the counter of `UsageDays` has all of these and agrees with it.
 */
module UsageLedger {
  import opened Options
  import opened UsageDays

  datatype Entry = Entry(day: Record, kept: bool)

  type Ledger = seq<Entry>

  /** Whether one of the first `n` entries falls into the week or month of a date, by `part`. */
  ghost predicate SeenBefore(l: Ledger, n: nat, part: int -> int, date: int)
    requires n <= |l|
  {
    exists j :: 0 <= j < n && part(l[j].day.date) == part(date)
  }

  ghost function OpenEntry(app: App, l: Ledger, date: int): Ledger {
    if l != [] && l[|l| - 1].kept && l[|l| - 1].day.date == date then l
    else
      var firstOfWeek, firstOfMonth := !SeenBefore(l, |l|, app.week, date), !SeenBefore(l, |l|, app.month, date);
      l + [Entry(Record(date, app.version, false, firstOfWeek, firstOfMonth, map[]), true)]
  }

  function ForgetEntries(l: Ledger, dates: set<int>): Ledger {
    if l == [] then []
    else
      var last := l[|l| - 1];
      ForgetEntries(l[..|l| - 1], dates) + [Entry(last.day, last.kept && last.day.date !in dates)]
  }

  function WithLast(l: Ledger, day: Record): Ledger
    requires l != []
  {
    l[..|l| - 1] + [Entry(day, true)]
  }

  ghost function LedgerStep(app: App, l: Ledger, e: Timed): Ledger {
    if e.action.Forget? then ForgetEntries(l, e.action.dates)
    else if !e.enabled then []
    else
      var after := OpenEntry(app, l, DateOf(e.at));
      match e.action
      case Count(counter) => WithLast(after, Bumped(after[|after| - 1].day, counter))
      case NoteSignedIn(signedIn) => if signedIn then WithLast(after, after[|after| - 1].day.(signedIn := true)) else l
      case _ => l
  }

  ghost function LedgerOf(app: App, run: seq<Timed>): Ledger {
    if run == [] then [] else LedgerStep(app, LedgerOf(app, run[..|run| - 1]), run[|run| - 1])
  }

  ghost predicate Ordered(run: seq<Timed>) {
    forall i, j :: 0 <= i < j < |run| ==> run[i].at <= run[j].at
  }

  // ---------------------------------------------------------------------------------------------
  // What the kept days look like, with any clock

  ghost predicate Ascending(days: seq<Record>) {
    forall i, j :: 0 <= i < j < |days| ==> days[i].date < days[j].date
  }

  /** Ascending by date, at most `KEPT_DAYS` and none older than that many days before the newest. */
  ghost predicate Windowed(days: seq<Record>) {
    && Ascending(days)
    && |days| <= KEPT_DAYS
    && forall i :: 0 <= i < |days| ==> days[|days| - 1].date - days[i].date < KEPT_DAYS
  }

  /** The days are among those of `other`, with the same order. */
  ghost predicate Thinned(days: seq<Record>, other: seq<Record>) {
    && |days| <= |other|
    && (Ascending(other) ==> Ascending(days))
    && forall i :: 0 <= i < |days| ==> days[i] in other
  }

  lemma {:induction false} BetweenThins(days: seq<Record>, oldest: int, date: int)
    ensures Thinned(Between(days, oldest, date), days)
    ensures forall day :: day in Between(days, oldest, date) <==> day in days && oldest <= day.date < date
  {
    if days != [] {
      BetweenThins(days[..|days| - 1], oldest, date);
      assert days == days[..|days| - 1] + [days[|days| - 1]];
    }
  }

  lemma {:induction false} WithoutThins(days: seq<Record>, dates: set<int>)
    ensures Thinned(Without(days, dates), days)
    ensures forall day :: day in Without(days, dates) <==> day in days && day.date !in dates
  {
    if days != [] {
      WithoutThins(days[..|days| - 1], dates);
      assert days == days[..|days| - 1] + [days[|days| - 1]];
    }
  }

  lemma {:induction false} AscendingFits(days: seq<Record>, from: int, to: int)
    requires Ascending(days) && forall i :: 0 <= i < |days| ==> from <= days[i].date <= to
    requires from <= to + 1
    ensures |days| <= to - from + 1
  {
    if days != [] {
      AscendingFits(days[..|days| - 1], from, days[|days| - 1].date - 1);
    }
  }

  lemma OpenKeepsWindow(app: App, s: State, date: int)
    requires Windowed(s.days)
    ensures Windowed(Open(app, s, date).days)
    ensures IndexOf(s.days, date) == |s.days| ==>
              Open(app, s, date).days == Between(s.days, date - (KEPT_DAYS - 1), date) + [NewDay(app, s, date)]
  {
    if IndexOf(s.days, date) == |s.days| {
      BetweenThins(s.days, date - (KEPT_DAYS - 1), date);
      var days := Between(s.days, date - (KEPT_DAYS - 1), date) + [NewDay(app, s, date)];
      AscendingFits(days, date - (KEPT_DAYS - 1), date);
    }
  }

  lemma StepKeepsWindow(app: App, s: State, e: Timed)
    requires Windowed(s.days)
    ensures Windowed(Step(app, s, e).days)
  {
    hide Between, Newest, IndexOf, Without, Open;
    if e.action.Forget? {
      WithoutThins(s.days, e.action.dates);
    } else {
      OpenKeepsWindow(app, s, DateOf(e.at));
    }
  }

  /** Whatever the clock does, the kept days are a window. */
  lemma {:induction false} KeptDaysAreAWindow(app: App, run: seq<Timed>)
    ensures Windowed(After(app, run).days)
  {
    if run != [] {
      KeptDaysAreAWindow(app, run[..|run| - 1]);
      StepKeepsWindow(app, After(app, run[..|run| - 1]), run[|run| - 1]);
    }
  }

  // ---------------------------------------------------------------------------------------------
  // The window is the recent part of the ledger

  ghost function Since(l: Ledger, oldest: int): seq<Record> {
    if l == [] then []
    else
      var last := l[|l| - 1];
      var before := Since(l[..|l| - 1], oldest);
      if last.kept && oldest <= last.day.date then before + [last.day] else before
  }

  /** The entries not forgotten, back to seven days before the last one. */
  ghost function Recent(l: Ledger): seq<Record> {
    if l == [] then [] else Since(l, l[|l| - 1].day.date - (KEPT_DAYS - 1))
  }

  /** In order of date; a date opened again comes after it was forgotten. */
  ghost predicate Chronological(l: Ledger) {
    forall i, j :: 0 <= i < j < |l| ==>
      l[i].day.date <= l[j].day.date && (l[i].day.date == l[j].day.date ==> !l[i].kept)
  }

  ghost predicate Agrees(app: App, s: State, l: Ledger) {
    && s.days == Recent(l)
    && s.lastWeek == (if l == [] then None else Some(app.week(l[|l| - 1].day.date)))
    && s.lastMonth == (if l == [] then None else Some(app.month(l[|l| - 1].day.date)))
    && Chronological(l)
  }

  ghost predicate NotAfter(l: Ledger, date: int) {
    l != [] ==> l[|l| - 1].day.date <= date
  }

  /** Over any run the counter keeps the recent part of the ledger. */
  lemma {:induction false} WindowOfLedger(app: App, run: seq<Timed>)
    requires InOrder(app) && Ordered(run)
    ensures Agrees(app, After(app, run), LedgerOf(app, run))
    ensures run != [] ==> NotAfter(LedgerOf(app, run), DateOf(run[|run| - 1].at))
  {
    if run != [] {
      var n := |run| - 1;
      WindowOfLedger(app, run[..n]);
      assert NotAfter(LedgerOf(app, run[..n]), DateOf(run[n].at));
      StepAgrees(app, After(app, run[..n]), LedgerOf(app, run[..n]), run[n]);
    }
  }

  // ---------------------------------------------------------------------------------------------
  // Each step agrees

  lemma {:induction false} SinceMembers(l: Ledger, oldest: int)
    ensures forall day :: day in Since(l, oldest) ==>
              exists i :: 0 <= i < |l| && l[i].kept && l[i].day == day && oldest <= day.date
  {
    if l != [] {
      var n := |l| - 1;
      SinceMembers(l[..n], oldest);
      forall day | day in Since(l, oldest)
        ensures exists i :: 0 <= i < |l| && l[i].kept && l[i].day == day && oldest <= day.date
      {
        if day in Since(l[..n], oldest) {
          var i :| 0 <= i < n && l[..n][i].kept && l[..n][i].day == day && oldest <= day.date;
          assert l[i].day == day;
        } else {
          assert l[n].day == day;
        }
      }
    }
  }

  lemma {:induction false} SinceNarrows(l: Ledger, wider: int, oldest: int, date: int)
    requires wider <= oldest
    requires forall i :: 0 <= i < |l| && l[i].kept ==> l[i].day.date < date
    ensures Between(Since(l, wider), oldest, date) == Since(l, oldest)
  {
    if l != [] {
      var n := |l| - 1;
      SinceNarrows(l[..n], wider, oldest, date);
      var before := Since(l[..n], wider);
      if Since(l, wider) != before {
        assert (before + [l[n].day])[..|before|] == before;
      }
    }
  }

  lemma {:induction false} SinceForgets(l: Ledger, oldest: int, dates: set<int>)
    ensures Without(Since(l, oldest), dates) == Since(ForgetEntries(l, dates), oldest)
  {
    if l != [] {
      var n := |l| - 1;
      SinceForgets(l[..n], oldest, dates);
      var before := Since(l[..n], oldest);
      assert ForgetEntries(l, dates)[..|ForgetEntries(l, dates)| - 1] == ForgetEntries(l[..n], dates);
      if Since(l, oldest) != before {
        assert (before + [l[n].day])[..|before|] == before;
      }
    }
  }

  lemma {:induction false} ForgetsInPlace(l: Ledger, dates: set<int>)
    ensures |ForgetEntries(l, dates)| == |l|
    ensures forall i :: 0 <= i < |l| ==>
              ForgetEntries(l, dates)[i] == Entry(l[i].day, l[i].kept && l[i].day.date !in dates)
  {
    if l != [] {
      ForgetsInPlace(l[..|l| - 1], dates);
    }
  }

  /** Where the day of `date` is among the kept ones. */
  lemma FindsTheLast(l: Ledger, date: int)
    requires Chronological(l) && NotAfter(l, date)
    ensures if l != [] && l[|l| - 1].kept && l[|l| - 1].day.date == date
            then |Recent(l)| > 0 && IndexOf(Recent(l), date) == |Recent(l)| - 1
                 && Recent(l)[|Recent(l)| - 1] == l[|l| - 1].day
            else IndexOf(Recent(l), date) == |Recent(l)|
  {
    if l != [] {
      var n := |l| - 1;
      var before := Since(l[..n], l[n].day.date - (KEPT_DAYS - 1));
      EarlierAreBefore(l, l[n].day.date - (KEPT_DAYS - 1));
      assert Recent(l) == before + if l[n].kept then [l[n].day] else [];
      forall k | 0 <= k < |before| ensures Recent(l)[k].date < l[n].day.date {
        assert before[k] in before;
      }
      IndexIs(Recent(l), date, if l[n].kept && l[n].day.date == date then |before| else |Recent(l)|);
    }
  }

  /** The kept days before the last entry are from earlier dates, if that one is kept or not. */
  lemma EarlierAreBefore(l: Ledger, oldest: int)
    requires l != [] && Chronological(l)
    ensures forall day :: day in Since(l[..|l| - 1], oldest) ==> day.date < l[|l| - 1].day.date
  {
    var n := |l| - 1;
    SinceMembers(l[..n], oldest);
    forall day | day in Since(l[..n], oldest) ensures day.date < l[n].day.date {
      var i :| 0 <= i < n && l[..n][i].kept && l[..n][i].day == day;
      assert l[i].kept && l[i].day == day;
    }
  }

  /** Within the order of dates the last week tells whether a week was seen, and so the last month. */
  lemma LastTells(l: Ledger, part: int -> int, date: int)
    requires l != [] && Chronological(l) && NotAfter(l, date)
    requires forall one, other :: one <= other ==> part(one) <= part(other)
    ensures SeenBefore(l, |l|, part, date) <==> part(l[|l| - 1].day.date) == part(date)
  {
    var last := l[|l| - 1].day.date;
    if SeenBefore(l, |l|, part, date) {
      var j :| 0 <= j < |l| && part(l[j].day.date) == part(date);
      assert l[j].day.date <= last;
      assert part(l[j].day.date) <= part(last) <= part(date);
    }
  }

  lemma OpenAgrees(app: App, s: State, l: Ledger, date: int)
    requires InOrder(app) && Agrees(app, s, l) && NotAfter(l, date)
    ensures Agrees(app, Open(app, s, date), OpenEntry(app, l, date))
    ensures var after := OpenEntry(app, l, date);
            after != [] && after[|after| - 1].kept && after[|after| - 1].day.date == date
  {
    FindsTheLast(l, date);
    if IndexOf(s.days, date) == |s.days| {
      NewDayAgrees(app, s, l, date);
    }
  }

  lemma NewDayAgrees(app: App, s: State, l: Ledger, date: int)
    requires InOrder(app) && Agrees(app, s, l) && NotAfter(l, date) && IndexOf(s.days, date) == |s.days|
    requires !(l != [] && l[|l| - 1].kept && l[|l| - 1].day.date == date)
    ensures Agrees(app, Open(app, s, date), OpenEntry(app, l, date))
  {
    hide Newest, Between, IndexOf, Recent, SeenBefore;
    if l != [] {
      LastTells(l, app.week, date);
      LastTells(l, app.month, date);
    } else {
      assert !SeenBefore(l, 0, app.week, date) && !SeenBefore(l, 0, app.month, date) by {
        SeenNone(l, app.week, date);
        SeenNone(l, app.month, date);
      }
    }
    RecentIsWindow(l);
    OpenKeepsWindow(app, s, date);
    RecentGrows(l, OpenEntry(app, l, date)[|l|]);
  }

  lemma SeenNone(l: Ledger, part: int -> int, date: int)
    ensures !SeenBefore(l, 0, part, date)
  {
  }

  lemma RecentGrows(l: Ledger, last: Entry)
    requires Chronological(l) && NotAfter(l, last.day.date) && last.kept
    requires !(l != [] && l[|l| - 1].kept && l[|l| - 1].day.date == last.day.date)
    ensures Recent(l + [last]) == Between(Recent(l), last.day.date - (KEPT_DAYS - 1), last.day.date) + [last.day]
    ensures Chronological(l + [last])
  {
    var oldest := last.day.date - (KEPT_DAYS - 1);
    RecentOfMore(l, last);
    hide Between, Since;
    if l != [] {
      SinceNarrows(l, l[|l| - 1].day.date - (KEPT_DAYS - 1), oldest, last.day.date);
    } else {
      BetweenThins([], oldest, last.day.date);
      NothingSince(oldest);
      assert Recent(l) == [];
    }
  }

  lemma NothingSince(oldest: int)
    ensures Since([], oldest) == []
  {
  }

  lemma RecentOfMore(l: Ledger, last: Entry)
    requires last.kept
    ensures Recent(l + [last]) == Since(l, last.day.date - (KEPT_DAYS - 1)) + [last.day]
  {
    assert (l + [last])[..|l|] == l;
  }

  lemma RecentIsWindow(l: Ledger)
    requires Chronological(l)
    ensures Windowed(Recent(l))
  {
    if l != [] {
      var newest := l[|l| - 1].day.date;
      SinceAscends(l, newest - (KEPT_DAYS - 1));
      AscendingFits(Recent(l), newest - (KEPT_DAYS - 1), newest);
    }
  }

  lemma {:induction false} SinceAscends(l: Ledger, oldest: int)
    requires Chronological(l)
    ensures Ascending(Since(l, oldest))
    ensures forall k :: 0 <= k < |Since(l, oldest)| ==> oldest <= Since(l, oldest)[k].date <= l[|l| - 1].day.date
  {
    if l != [] {
      var n := |l| - 1;
      SinceAscends(l[..n], oldest);
      SinceMembers(l[..n], oldest);
      var before := Since(l[..n], oldest);
      forall k | 0 <= k < |before|
        ensures before[k].date <= l[n].day.date && (l[n].kept ==> before[k].date < l[n].day.date)
      {
        assert before[k] in before;
        var i :| 0 <= i < n && l[..n][i].kept && l[..n][i].day == before[k];
        assert l[i].kept;
      }
    }
  }

  /** Changing the counts of the day just opened. */
  lemma LastChanges(app: App, s: State, l: Ledger, date: int, day: Record)
    requires Agrees(app, s, l) && l != [] && l[|l| - 1].kept && l[|l| - 1].day.date == date
    requires day.date == date
    ensures IndexOf(s.days, date) < |s.days| && s.days[IndexOf(s.days, date)] == l[|l| - 1].day
    ensures Agrees(app, s.(days := s.days[IndexOf(s.days, date) := day]), WithLast(l, day))
  {
    FindsTheLast(l, date);
    hide IndexOf;
    var after := WithLast(l, day);
    assert after[..|l| - 1] == l[..|l| - 1];
    assert Recent(after) == Recent(l)[|Recent(l)| - 1 := day];
  }

  lemma StepAgrees(app: App, s: State, l: Ledger, e: Timed)
    requires InOrder(app) && Agrees(app, s, l) && NotAfter(l, DateOf(e.at))
    ensures Agrees(app, Step(app, s, e), LedgerStep(app, l, e)) && NotAfter(LedgerStep(app, l, e), DateOf(e.at))
  {
    hide Agrees, Open, OpenEntry, IndexOf, Without;
    if e.action.Forget? {
      ForgetAgrees(app, s, l, e.action.dates);
    } else if !e.enabled {
      DiscardAgrees(app, s);
    } else if e.action.Count? || (e.action.NoteSignedIn? && e.action.signedIn) {
      var date := DateOf(e.at);
      OpenAgrees(app, s, l, date);
      var after := OpenEntry(app, l, date);
      var day := after[|after| - 1].day;
      LastChanges(app, Open(app, s, date), after, date,
        if e.action.Count? then Bumped(day, e.action.counter) else day.(signedIn := true));
    }
  }

  lemma DiscardAgrees(app: App, s: State)
    ensures Agrees(app, Discarded(s), [])
  {
  }

  lemma ForgetAgrees(app: App, s: State, l: Ledger, dates: set<int>)
    requires Agrees(app, s, l)
    ensures Agrees(app, Forgotten(s, dates), ForgetEntries(l, dates))
    ensures forall date :: NotAfter(l, date) ==> NotAfter(ForgetEntries(l, dates), date)
  {
    hide Without, ForgetEntries, Since;
    var after := ForgetEntries(l, dates);
    ForgetsInPlace(l, dates);
    if l != [] {
      SinceForgets(l, l[|l| - 1].day.date - (KEPT_DAYS - 1), dates);
    } else {
      WithoutThins(s.days, dates);
    }
  }

  // ---------------------------------------------------------------------------------------------
  // What is counted

  function CountOf(day: Record, counter: string): nat {
    if counter in day.counts then day.counts[counter] else 0
  }

  function Tally(l: Ledger, counter: string): nat {
    if l == [] then 0 else Tally(l[..|l| - 1], counter) + CountOf(l[|l| - 1].day, counter)
  }

  /** The calls to count a counter since the switch was last found off. */
  function CallsOf(run: seq<Timed>, counter: string): nat {
    if run == [] then 0
    else
      var before := CallsOf(run[..|run| - 1], counter);
      var last := run[|run| - 1];
      if last.action.Forget? then before
      else if !last.enabled then 0
      else if last.action == Count(counter) then before + 1
      else before
  }

  lemma {:induction false} ForgettingTallies(l: Ledger, dates: set<int>, counter: string)
    ensures Tally(ForgetEntries(l, dates), counter) == Tally(l, counter)
  {
    if l != [] {
      var before := ForgetEntries(l[..|l| - 1], dates);
      ForgettingTallies(l[..|l| - 1], dates, counter);
      assert ForgetEntries(l, dates)[..|before|] == before;
    }
  }

  lemma OpeningTallies(app: App, l: Ledger, date: int, counter: string)
    ensures OpenEntry(app, l, date) != [] && Tally(OpenEntry(app, l, date), counter) == Tally(l, counter)
  {
    var after := OpenEntry(app, l, date);
    if after != l {
      assert after[..|after| - 1] == l;
    }
  }

  /** Every call while the switch is on is counted once, on one of the days opened since. */
  lemma {:induction false} EveryCallIsCounted(app: App, run: seq<Timed>, counter: string)
    ensures Tally(LedgerOf(app, run), counter) == CallsOf(run, counter)
  {
    if run != [] {
      var n := |run| - 1;
      var l := LedgerOf(app, run[..n]);
      var e := run[n];
      EveryCallIsCounted(app, run[..n], counter);
      StepTallies(app, l, e, counter);
    }
  }

  lemma StepTallies(app: App, l: Ledger, e: Timed, counter: string)
    ensures Tally(LedgerStep(app, l, e), counter) ==
              if e.action.Forget? then Tally(l, counter)
              else if !e.enabled then 0
              else Tally(l, counter) + if e.action == Count(counter) then 1 else 0
  {
    hide OpenEntry, ForgetEntries, WithLast;
    if e.action.Forget? {
      ForgettingTallies(l, e.action.dates, counter);
    } else if e.enabled {
      var after := OpenEntry(app, l, DateOf(e.at));
      OpeningTallies(app, l, DateOf(e.at), counter);
      var day := after[|after| - 1].day;
      if e.action.Count? {
        LastTallies(after, Bumped(day, e.action.counter), counter);
        BumpedCounts(day, e.action.counter, counter);
      } else {
        LastTallies(after, day.(signedIn := true), counter);
      }
    }
  }

  lemma BumpedCounts(day: Record, counter: string, other: string)
    ensures CountOf(Bumped(day, counter), other) == CountOf(day, other) + if counter == other then 1 else 0
  {
  }

  lemma LastTallies(l: Ledger, day: Record, counter: string)
    requires l != []
    ensures Tally(WithLast(l, day), counter)
              == Tally(l, counter) - CountOf(l[|l| - 1].day, counter) + CountOf(day, counter)
  {
    var after := WithLast(l, day);
    assert after[..|after| - 1] == l[..|l| - 1];
  }

  predicate Opens(e: Timed) {
    e.enabled && (e.action.Count? || (e.action.NoteSignedIn? && e.action.signedIn))
  }

  /** The date of the first action that counted. */
  function FirstOpened(run: seq<Timed>): Option<int> {
    if run == [] then None
    else if FirstOpened(run[..|run| - 1]).Some? then FirstOpened(run[..|run| - 1])
    else if Opens(run[|run| - 1]) then Some(DateOf(run[|run| - 1].at))
    else None
  }

  /** The cohort is fixed by the first day ever counted: no later day, no switch and no forgetting changes it. */
  lemma {:induction false} FirstDateIsFirstOpened(app: App, run: seq<Timed>)
    ensures After(app, run).firstDate == FirstOpened(run)
    ensures After(app, run).firstDate.None? ==> After(app, run).days == []
  {
    if run != [] {
      FirstDateIsFirstOpened(app, run[..|run| - 1]);
      FirstDateStep(app, After(app, run[..|run| - 1]), run[|run| - 1]);
    }
  }

  lemma FirstDateStep(app: App, s: State, e: Timed)
    requires s.firstDate.None? ==> s.days == []
    ensures Step(app, s, e).firstDate == if s.firstDate.None? && Opens(e) then Some(DateOf(e.at)) else s.firstDate
    ensures Step(app, s, e).firstDate.None? ==> Step(app, s, e).days == []
  {
    hide Between, Newest, Without;
    if e.action.Forget? {
      WithoutThins(s.days, e.action.dates);
    } else if s.firstDate.None? {
      IndexIs(s.days, DateOf(e.at), 0);
    }
  }
}
