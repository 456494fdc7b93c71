/**
 Whole runs of the usage counter: counts and flushes one after the other, with other actions in
 the waits of a flush. The clock does not go back.
 */
module UsageRuns {
  import opened Options
  import opened UsageDays
  import opened UsageLedger
  import opened UsageBatches
  import opened UsageFlush
  import opened UsageConservation

  // ---------------------------------------------------------------------------------------------
  // A flush only forgets

  /** No action comes on one of the dates. */
  ghost predicate NoneOn(actions: seq<Timed>, dates: set<int>) {
    forall i :: 0 <= i < |actions| ==> DateOf(actions[i].at) !in dates
  }

  lemma {:induction false} WithoutBetween(days: seq<Record>, oldest: int, date: int, dates: set<int>)
    ensures Between(Without(days, dates), oldest, date) == Without(Between(days, oldest, date), dates)
  {
    if days != [] {
      var n := |days| - 1;
      var day := days[n];
      var kept, recent := Without(days[..n], dates), Between(days[..n], oldest, date);
      WithoutBetween(days[..n], oldest, date, dates);
      assert Without(days, dates) == if day.date in dates then kept else kept + [day];
      assert Between(days, oldest, date) == if oldest <= day.date < date then recent + [day] else recent;
      hide Without, Between;
      WithoutLast(recent, day, dates);
      BetweenLast(kept, day, oldest, date);
    }
  }

  lemma WithoutLast(days: seq<Record>, day: Record, dates: set<int>)
    ensures Without(days + [day], dates)
         == if day.date in dates then Without(days, dates) else Without(days, dates) + [day]
  {
    assert (days + [day])[..|days|] == days;
  }

  lemma BetweenLast(days: seq<Record>, day: Record, oldest: int, date: int)
    ensures Between(days + [day], oldest, date)
         == if oldest <= day.date < date then Between(days, oldest, date) + [day] else Between(days, oldest, date)
  {
    assert (days + [day])[..|days|] == days;
  }

  lemma {:induction false} WithoutBoth(days: seq<Record>, more: seq<Record>, dates: set<int>)
    ensures Without(days + more, dates) == Without(days, dates) + Without(more, dates)
  {
    if more == [] {
      assert days + more == days;
    } else {
      var n := |more| - 1;
      var before, day := more[..n], more[n];
      assert more == before + [day] && days + more == days + before + [day];
      hide Without;
      WithoutBoth(days, before, dates);
      WithoutLast(days + before, day, dates);
      WithoutLast(before, day, dates);
    }
  }

  /** Where a day that is not forgotten is found then. */
  lemma WithoutFinds(days: seq<Record>, date: int, dates: set<int>, day: Record)
    requires date !in dates && day.date == date
    ensures var kept := Without(days, dates);
            var i, j := IndexOf(days, date), IndexOf(kept, date);
            if i < |days| then j < |kept| && kept[j] == days[i] && kept[j := day] == Without(days[i := day], dates)
            else j == |kept|
  {
    hide Without, IndexOf;
    var kept := Without(days, dates);
    var i := IndexOf(days, date);
    NoneBefore(days, i, date, dates);
    var before := Without(days[..i], dates);
    if i < |days| {
      WithoutAround(days[..i], days[i], days[i + 1..], dates);
      WithoutAround(days[..i], day, days[i + 1..], dates);
      assert days == days[..i] + [days[i]] + days[i + 1..];
      assert days[i := day] == days[..i] + [day] + days[i + 1..];
      IndexIs(kept, date, |before|);
    } else {
      assert days[..i] == days;
      IndexIs(kept, date, |kept|);
    }
  }

  lemma NoneBefore(days: seq<Record>, i: nat, date: int, dates: set<int>)
    requires i <= |days| && forall j :: 0 <= j < i ==> days[j].date != date
    ensures forall k :: 0 <= k < |Without(days[..i], dates)| ==> Without(days[..i], dates)[k].date != date
  {
    WithoutThins(days[..i], dates);
    var before := Without(days[..i], dates);
    forall k | 0 <= k < |before| ensures before[k].date != date {
      assert before[k] in days[..i];
    }
  }

  lemma WithoutAround(days: seq<Record>, day: Record, more: seq<Record>, dates: set<int>)
    requires day.date !in dates
    ensures Without(days + [day] + more, dates) == Without(days, dates) + [day] + Without(more, dates)
  {
    WithoutBoth(days + [day], more, dates);
    WithoutLast(days, day, dates);
  }

  lemma OpenWithout(app: App, s: State, date: int, dates: set<int>)
    requires Windowed(s.days) && date !in dates
    ensures Open(app, Forgotten(s, dates), date) == Forgotten(Open(app, s, date), dates)
  {
    hide Between, Newest, IndexOf, Without;
    WithoutFinds(s.days, date, dates, NewDay(app, s, date));
    WithoutThins(s.days, dates);
    WithoutKeepsWindow(s.days, dates);
    OpenKeepsWindow(app, s, date);
    OpenKeepsWindow(app, Forgotten(s, dates), date);
    WithoutBetween(s.days, date - (KEPT_DAYS - 1), date, dates);
    WithoutLast(Between(s.days, date - (KEPT_DAYS - 1), date), NewDay(app, s, date), dates);
  }

  lemma WithoutKeepsWindow(days: seq<Record>, dates: set<int>)
    requires Windowed(days)
    ensures Windowed(Without(days, dates))
  {
    WithoutThins(days, dates);
    var kept := Without(days, dates);
    forall i | 0 <= i < |kept| ensures kept[|kept| - 1].date - kept[i].date < KEPT_DAYS {
      assert kept[i] in days && kept[|kept| - 1] in days;
    }
  }

  lemma {:induction false} WithoutTwice(days: seq<Record>, dates: set<int>, others: set<int>)
    ensures Without(Without(days, dates), others) == Without(days, dates + others)
  {
    if days != [] {
      var n := |days| - 1;
      var before := Without(days[..n], dates);
      WithoutTwice(days[..n], dates, others);
      if days[n].date !in dates {
        WithoutLast(before, days[n], others);
        assert Without(days, dates) == before + [days[n]];
      } else {
        assert Without(days, dates) == before;
      }
    }
  }

  /** Forgetting dates first, or after an action on another date, comes to the same. */
  lemma StepWithout(app: App, s: State, e: Timed, dates: set<int>)
    requires Windowed(s.days) && DateOf(e.at) !in dates
    ensures Step(app, Forgotten(s, dates), e) == Forgotten(Step(app, s, e), dates)
  {
    hide Without, IndexOf, Open, Windowed;
    if e.action.Forget? {
      WithoutTwice(s.days, dates, e.action.dates);
      WithoutTwice(s.days, e.action.dates, dates);
      assert dates + e.action.dates == e.action.dates + dates;
    } else if !e.enabled {
      WithoutThins([], dates);
    } else {
      var date := DateOf(e.at);
      OpenWithout(app, s, date, dates);
      OpenKeepsWindow(app, s, date);
      var after := Open(app, s, date);
      var day := after.days[IndexOf(after.days, date)];
      if e.action.Count? {
        WithoutFinds(after.days, date, dates, Bumped(day, e.action.counter));
      } else if e.action.NoteSignedIn? && e.action.signedIn {
        WithoutFinds(after.days, date, dates, day.(signedIn := true));
      }
    }
  }

  lemma {:induction false} PlayWithout(app: App, s: State, actions: seq<Timed>, dates: set<int>)
    requires Windowed(s.days) && NoneOn(actions, dates)
    ensures Play(app, Forgotten(s, dates), actions) == Forgotten(Play(app, s, actions), dates)
  {
    hide Step, Without, Windowed;
    if actions != [] {
      var n := |actions| - 1;
      PlayWithout(app, s, actions[..n], dates);
      PlayKeepsWindow(app, s, actions[..n]);
      StepWithout(app, Play(app, s, actions[..n]), actions[n], dates);
    }
  }

  lemma {:induction false} PlayBoth(app: App, s: State, actions: seq<Timed>, more: seq<Timed>)
    ensures Play(app, s, actions + more) == Play(app, Play(app, s, actions), more)
  {
    hide Step;
    if more == [] {
      assert actions + more == actions;
    } else {
      var n := |more| - 1;
      PlayBoth(app, s, actions, more[..n]);
      assert (actions + more)[..|actions| + n] == actions + more[..n];
    }
  }

  lemma SetOfBoth(dates: seq<int>, more: seq<int>)
    ensures Set(dates + more) == Set(dates) + Set(more)
  {
  }

  lemma NothingPlayed(app: App, s: State)
    ensures Play(app, s, []) == s && Forgotten(s, Set([])) == s
  {
    NothingToForget(s);
  }

  /** The sends change nothing but to forget the dates taken and those answered 400, whatever comes in between. */
  lemma {:induction false} SendsOnlyForget(app: App, ingest: Ingest, send: nat -> Send, s: State,
                                           batches: seq<seq<Day>>, i: nat, dates: set<int>)
    requires i <= |batches| && Windowed(s.days) && Set(DatesFrom(batches, i)) <= dates
    requires NoneOn(SendFrom(app, ingest, send, s, batches, i).during, dates)
    ensures var out := SendFrom(app, ingest, send, s, batches, i);
            && out.state == Forgotten(Play(app, s, out.during), Set(out.taken) + Set(out.refused))
            && Set(out.taken) + Set(out.refused) <= dates
    decreases |batches| - i
  {
    hide Play, Step, Without, Windowed, Forgotten, Set, DatesOf;
    var out := SendFrom(app, ingest, send, s, batches, i);
    NoneListed();
    var none: set<int> := {};
    assert none + none == none;
    NothingPlayed(app, s);
    if i < |batches| {
      var now := DatesOf(batches[i]);
      SetOfBoth(now, DatesFrom(batches, i + 1));
      var meanwhile := Play(app, s, send(i).during);
      if !ingest.schema(batches[i]) {
        SendsOnlyForget(app, ingest, send, s, batches, i + 1, dates);
      } else if send(i).answer == Taken || send(i).answer == Refused(400) {
        var next := Forgotten(meanwhile, Set(now));
        var rest := SendFrom(app, ingest, send, next, batches, i + 1);
        assert out.during == send(i).during + rest.during;
        assert forall k :: 0 <= k < |rest.during| ==> rest.during[k] == out.during[|send(i).during| + k];
        PlayKeepsWindow(app, s, send(i).during);
        ForgottenKeepsWindow(meanwhile, Set(now));
        SendsOnlyForget(app, ingest, send, next, batches, i + 1, dates);
        PlayWithout(app, meanwhile, rest.during, Set(now));
        PlayBoth(app, s, send(i).during, rest.during);
        ForgottenTwice(Play(app, s, out.during), Set(now), Set(rest.taken) + Set(rest.refused));
        SetOfBoth(now, rest.taken);
        SetOfBoth(now, rest.refused);
        assert Set(out.taken) + Set(out.refused) == Set(now) + (Set(rest.taken) + Set(rest.refused));
      } else {
        NothingPlayed(app, meanwhile);
      }
    }
  }

  lemma NoneListed()
    ensures Set([]) == {}
  {
  }

  lemma ForgottenKeepsWindow(s: State, dates: set<int>)
    requires Windowed(s.days)
    ensures Windowed(Forgotten(s, dates).days)
  {
    WithoutKeepsWindow(s.days, dates);
  }

  lemma ForgottenTwice(s: State, dates: set<int>, others: set<int>)
    ensures Forgotten(Forgotten(s, dates), others) == Forgotten(s, dates + others)
  {
    WithoutTwice(s.days, dates, others);
  }

  /** The dates a flush forgets. */
  function Gone(app: App, ingest: Ingest, s: State, f: Flush): set<int> {
    var out := Flushed(app, ingest, s, f);
    Set(Hopeless(app, ingest, s, f)) + (Set(out.taken) + Set(out.refused))
  }

  /** The actions in the waits for answers come no earlier than the day the finished days were listed on. */
  ghost predicate InTime(app: App, ingest: Ingest, s: State, f: Flush) {
    var out := Flushed(app, ingest, s, f);
    forall i :: 0 <= i < |out.during| ==> DateOf(f.finishedAt) <= DateOf(out.during[i].at)
  }

  lemma PastIsAvoided(actions: seq<Timed>, now: int, dates: set<int>)
    requires forall i :: 0 <= i < |actions| ==> DateOf(now) <= DateOf(actions[i].at)
    requires forall date :: date in dates ==> date < DateOf(now)
    ensures NoneOn(actions, dates)
  {
  }

  /** A flush comes to the same as the actions in between without it, and then forgetting what is gone. Today stays. */
  lemma FlushOnlyForgets(app: App, ingest: Ingest, s: State, f: Flush)
    requires Windowed(s.days) && InTime(app, ingest, s, f)
    ensures var first := if f.begun.enabled
                         then f.asking + [Timed(f.noted.at, f.noted.enabled, NoteSignedIn(f.signedIn))]
                         else [Timed(f.begun.at, false, Check)];
            Flushed(app, ingest, s, f).state
              == Forgotten(Play(app, s, first + Flushed(app, ingest, s, f).during), Gone(app, ingest, s, f))
    ensures forall date :: date in Gone(app, ingest, s, f) ==> date < DateOf(f.finishedAt)
  {
    hide Play, Step, Without, Windowed, Forgotten, SendFrom, DatesOf, Finished, Sendable, Unsendable;
    var out := Flushed(app, ingest, s, f);
    var noted := Play(app, s, Opening(f));
    PlayKeepsWindow(app, s, Opening(f));
    PlayBoth(app, s, Opening(f), out.during);
    GoneIsPast(app, ingest, s, f);
    if Records(app, s, f) == [] {
      NothingPlayed(app, noted);
      assert Hopeless(app, ingest, s, f) == [] by { NoRecords(0); }
      NoneListed();
      assert Gone(app, ingest, s, f) == Set([]);
    } else {
      var hopeless := Set(Hopeless(app, ingest, s, f));
      var batches := BatchesOf(Days(app, ingest, s, f));
      BatchDatesArePast(app, ingest, s, f);
      ForgottenKeepsWindow(noted, hopeless);
      assert forall date :: date in hopeless ==> date in Gone(app, ingest, s, f);
      PastIsAvoided(out.during, f.finishedAt, hopeless);
      SendsOnlyForget(app, ingest, f.send, Forgotten(noted, hopeless), batches, 0, Set(DatesFrom(batches, 0)));
      PlayWithout(app, noted, out.during, hopeless);
      ForgottenTwice(Play(app, noted, out.during), hopeless, Set(out.taken) + Set(out.refused));
    }
  }

  lemma BatchDatesArePast(app: App, ingest: Ingest, s: State, f: Flush)
    requires Windowed(s.days)
    ensures forall date :: date in DatesFrom(BatchesOf(Days(app, ingest, s, f)), 0) ==> date < DateOf(f.finishedAt)
  {
    hide Play, Step, Without, DatesOf, Finished, Sendable, Flatten, Records;
    var days := Days(app, ingest, s, f);
    var batches := BatchesOf(days);
    BatchesSplit(days);
    DatesOfBatches(batches, 0);
    assert batches[..0] == [] && DatesOf(Flatten([])) == [] by {
      NoDates();
    }
    assert [] + DatesFrom(batches, 0) == DatesFrom(batches, 0);
    DaysArePast(app, ingest, s, f);
  }

  lemma DaysArePast(app: App, ingest: Ingest, s: State, f: Flush)
    requires Windowed(s.days)
    ensures forall date :: date in DatesOf(Days(app, ingest, s, f)) ==> date < DateOf(f.finishedAt)
  {
    hide Play, Step, Sendable, Finished;
    RecordsAreFinished(app, s, f);
    var records := Records(app, s, f);
    var noted := Play(app, s, Opening(f));
    if noted.firstDate != None {
      SendableAreRecords(ingest, records, app.week(noted.firstDate.value));
      forall date | date in DatesOf(Days(app, ingest, s, f)) ensures date < DateOf(f.finishedAt) {
        assert HasRecord(records, date);
      }
    }
  }

  lemma GoneIsPast(app: App, ingest: Ingest, s: State, f: Flush)
    requires Windowed(s.days)
    ensures forall date :: date in Gone(app, ingest, s, f) ==> date < DateOf(f.finishedAt)
  {
    hide Flushed, Hopeless, Records, Times, TimesFor, DateOf;
    var out := Flushed(app, ingest, s, f);
    forall date | date in Gone(app, ingest, s, f) ensures date < DateOf(f.finishedAt) {
      ListedIffTimes(Hopeless(app, ingest, s, f), date);
      ListedIffTimes(out.taken, date);
      ListedIffTimes(out.refused, date);
      FlushConserves(app, ingest, s, f, date);
      RecordIffTimes(Records(app, s, f), date);
      RecordsAreFinished(app, s, f);
      assert HasRecord(Records(app, s, f), date);
    }
  }

  // ---------------------------------------------------------------------------------------------
  // No date is taken twice

  datatype Event = Do(action: Timed) | Report(flush: Flush)

  /** The counter, and all dates the ingest took so far. */
  datatype World = World(state: State, taken: seq<int>)

  function Happen(app: App, ingest: Ingest, w: World, event: Event): World {
    match event
    case Do(e) => World(Step(app, w.state, e), w.taken)
    case Report(f) =>
      var out := Flushed(app, ingest, w.state, f);
      World(out.state, w.taken + out.taken)
  }

  function WorldAfter(app: App, ingest: Ingest, run: seq<Event>): World {
    if run == [] then World(EMPTY_STATE, [])
    else Happen(app, ingest, WorldAfter(app, ingest, run[..|run| - 1]), run[|run| - 1])
  }

  /** The event reads the clock no earlier than `from` and no later than `to`, and in order. */
  ghost predicate Reads(app: App, ingest: Ingest, s: State, event: Event, from: int, to: int) {
    match event
    case Do(e) => from <= e.at <= to
    case Report(f) =>
      && Within(Opening(f), from, if f.begun.enabled then f.finishedAt else to)
      && (f.begun.enabled ==> from <= f.finishedAt <= to)
      && (Records(app, s, f) != [] ==> Within(Flushed(app, ingest, s, f).during, f.finishedAt, to))
  }

  ghost predicate Within(actions: seq<Timed>, from: int, to: int) {
    from <= to && forall i :: 0 <= i < |actions| ==> from <= actions[i].at <= to
  }

  /** The clock does not go back from one event to the next, nor to the moment a flush listed the days. */
  ghost predicate InClockOrder(app: App, ingest: Ingest, run: seq<Event>, clocks: seq<int>) {
    && |clocks| == |run| + 1
    && forall i :: 0 <= i < |run| ==>
         Reads(app, ingest, WorldAfter(app, ingest, run[..i]).state, run[i], clocks[i], clocks[i + 1])
  }

  ghost predicate Settled(w: World, clock: int) {
    && Windowed(w.state.days)
    && (forall date :: Times(w.taken, date) <= 1)
    && forall date :: date in w.taken ==> date < DateOf(clock) && !HasRecord(w.state.days, date)
  }

  /** Over any run no date is taken twice, and those taken are past and no longer kept. */
  lemma {:induction false} NoDateTakenTwice(app: App, ingest: Ingest, run: seq<Event>, clocks: seq<int>)
    requires InClockOrder(app, ingest, run, clocks)
    ensures Settled(WorldAfter(app, ingest, run), clocks[|run|])
  {
    if run != [] {
      var n := |run| - 1;
      assert forall i :: 0 <= i < n ==> run[..n][..i] == run[..i];
      NoDateTakenTwice(app, ingest, run[..n], clocks[..n + 1]);
      var w := WorldAfter(app, ingest, run[..n]);
      assert Reads(app, ingest, w.state, run[n], clocks[n], clocks[n + 1]);
      match run[n] {
        case Do(e) => ActionSettles(app, w, e, clocks[n], clocks[n + 1]);
        case Report(f) => FlushSettles(app, ingest, w, f, clocks[n], clocks[n + 1]);
      }
    }
  }

  lemma DatesGrow(one: int, other: int)
    requires one <= other
    ensures DateOf(one) <= DateOf(other)
  {
  }

  /** A day that is not kept comes back only on its own date. */
  lemma StepStaysAway(app: App, s: State, e: Timed, date: int)
    requires !HasRecord(s.days, date) && DateOf(e.at) != date
    ensures !HasRecord(Step(app, s, e).days, date)
  {
    hide IndexOf, Between, Newest, Without;
    if e.action.Forget? {
      WithoutThins(s.days, e.action.dates);
    } else if e.enabled {
      OpenStaysAway(app, s, DateOf(e.at), date);
    }
  }

  lemma OpenStaysAway(app: App, s: State, today: int, date: int)
    requires !HasRecord(s.days, date) && today != date
    ensures !HasRecord(Open(app, s, today).days, date)
  {
    BetweenThins(s.days, today - (KEPT_DAYS - 1), today);
    var all := Between(s.days, today - (KEPT_DAYS - 1), today) + [NewDay(app, s, today)];
    assert forall i :: 0 <= i < |all| ==> all[i].date != date;
  }

  lemma {:induction false} PlayStaysAway(app: App, s: State, actions: seq<Timed>, date: int)
    requires !HasRecord(s.days, date) && NoneOn(actions, {date})
    ensures !HasRecord(Play(app, s, actions).days, date)
  {
    hide Step, HasRecord;
    if actions != [] {
      var n := |actions| - 1;
      PlayStaysAway(app, s, actions[..n], date);
      StepStaysAway(app, Play(app, s, actions[..n]), actions[n], date);
    }
  }

  lemma ActionSettles(app: App, w: World, e: Timed, from: int, to: int)
    requires Settled(w, from) && from <= e.at <= to
    ensures Settled(World(Step(app, w.state, e), w.taken), to)
  {
    hide Step, Windowed, HasRecord, Times;
    StepKeepsWindow(app, w.state, e);
    DatesGrow(from, e.at);
    DatesGrow(from, to);
    forall date | date in w.taken ensures !HasRecord(Step(app, w.state, e).days, date) {
      StepStaysAway(app, w.state, e, date);
    }
  }

  lemma FlushSettles(app: App, ingest: Ingest, w: World, f: Flush, from: int, to: int)
    requires Settled(w, from) && Reads(app, ingest, w.state, Report(f), from, to)
    ensures Settled(Happen(app, ingest, w, Report(f)), to)
  {
    hide Step, Play, Windowed, HasRecord, Times, Flushed, Hopeless, Records, Opening;
    var s := w.state;
    var out := Flushed(app, ingest, s, f);
    DuringInTime(app, ingest, s, f, from, to);
    FlushOnlyForgets(app, ingest, s, f);
    FirstActions(f);
    var played := Opening(f) + out.during;
    var after := Play(app, s, played);
    PlayKeepsWindow(app, s, played);
    ForgottenKeepsWindow(after, Gone(app, ingest, s, f));
    DatesGrow(from, to);
    forall date | date in w.taken + out.taken
      ensures date < DateOf(to) && !HasRecord(out.state.days, date)
    {
      if date in w.taken {
        PlayedLater(app, ingest, s, f, from);
        OldStaysAway(app, w, played, from, date);
      } else {
        assert date in Set(out.taken);
        DatesGrow(f.finishedAt, to);
      }
      StaysForgotten(after, Gone(app, ingest, s, f), date);
    }
    forall date ensures Times(w.taken + out.taken, date) <= 1 {
      NotTakenAgain(app, ingest, w, f, from, date);
    }
  }

  lemma FirstActions(f: Flush)
    ensures Opening(f) == if f.begun.enabled
                          then f.asking + [Timed(f.noted.at, f.noted.enabled, NoteSignedIn(f.signedIn))]
                          else [Timed(f.begun.at, false, Check)]
  {
  }

  lemma DuringInTime(app: App, ingest: Ingest, s: State, f: Flush, from: int, to: int)
    requires Reads(app, ingest, s, Report(f), from, to)
    ensures InTime(app, ingest, s, f)
    ensures forall i :: 0 <= i < |Opening(f)| ==> DateOf(from) <= DateOf(Opening(f)[i].at)
    ensures Records(app, s, f) != [] ==> from <= f.finishedAt <= to
    ensures Records(app, s, f) == [] ==>
              Flushed(app, ingest, s, f).during == [] && Flushed(app, ingest, s, f).taken == []
  {
    hide Play, Step, SendFrom, Finished, BatchesOf, Sendable, Unsendable;
  }

  lemma PlayedLater(app: App, ingest: Ingest, s: State, f: Flush, from: int)
    requires InTime(app, ingest, s, f)
    requires forall i :: 0 <= i < |Opening(f)| ==> DateOf(from) <= DateOf(Opening(f)[i].at)
    requires Flushed(app, ingest, s, f).during != [] ==> from <= f.finishedAt
    ensures var played := Opening(f) + Flushed(app, ingest, s, f).during;
            forall i :: 0 <= i < |played| ==> DateOf(from) <= DateOf(played[i].at)
  {
    hide Flushed, Opening;
  }

  lemma OldStaysAway(app: App, w: World, actions: seq<Timed>, from: int, date: int)
    requires Settled(w, from) && date in w.taken
    requires forall i :: 0 <= i < |actions| ==> DateOf(from) <= DateOf(actions[i].at)
    ensures !HasRecord(Play(app, w.state, actions).days, date)
  {
    PlayStaysAway(app, w.state, actions, date);
  }

  lemma StaysForgotten(s: State, dates: set<int>, date: int)
    requires !HasRecord(s.days, date) || date in dates
    ensures !HasRecord(Forgotten(s, dates).days, date)
  {
    WithoutThins(s.days, dates);
    var kept := Without(s.days, dates);
    forall i | 0 <= i < |kept| ensures kept[i].date != date {
      assert kept[i] in kept;
    }
  }

  lemma NotTakenAgain(app: App, ingest: Ingest, w: World, f: Flush, from: int, date: int)
    requires Settled(w, from)
    requires forall i :: 0 <= i < |Opening(f)| ==> DateOf(from) <= DateOf(Opening(f)[i].at)
    ensures Times(w.taken + Flushed(app, ingest, w.state, f).taken, date) <= 1
  {
    hide Step, Play, Windowed, Flushed, Hopeless, Opening, Times, TimesFor, Records, HasRecord;
    var out := Flushed(app, ingest, w.state, f);
    TimesInBoth(w.taken, out.taken, date);
    FlushConserves(app, ingest, w.state, f, date);
    ListedIffTimes(w.taken, date);
    if date in w.taken {
      OldStaysAway(app, w, Opening(f), from, date);
      NotListed(app, w.state, f, date);
      RecordIffTimes(Records(app, w.state, f), date);
    }
  }

  lemma NotListed(app: App, s: State, f: Flush, date: int)
    requires Windowed(s.days) && !HasRecord(Play(app, s, Opening(f)).days, date)
    ensures !HasRecord(Records(app, s, f), date)
  {
    hide Step, Play, Windowed, Opening, Finished;
    RecordsAreFinished(app, s, f);
    var records := Records(app, s, f);
    var days := Play(app, s, Opening(f)).days;
    forall i | 0 <= i < |records| ensures records[i].date != date {
      assert records[i] in records;
      var k :| 0 <= k < |days| && days[k] == records[i];
    }
  }
}
