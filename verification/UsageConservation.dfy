/**
 What a flush keeps: no day is lost or counted in twice, today is never sent, and over a whole
 run of counts and flushes no date is taken twice.
 */
module UsageConservation {
  import opened Options
  import opened UsageDays
  import opened UsageLedger
  import opened UsageBatches
  import opened UsageFlush

  // ---------------------------------------------------------------------------------------------
  // The fate of each batch

  datatype Fate = Sent | Dropped | Waiting

  /** The first batch from `i` on whose send fails other than with a 400, or the number of batches. */
  function FirstFailure(ingest: Ingest, send: nat -> Send, batches: seq<seq<Day>>, i: nat): (n: nat)
    requires i <= |batches|
    ensures i <= n <= |batches|
    decreases |batches| - i
  {
    if i == |batches| then i
    else if ingest.schema(batches[i]) && send(i).answer != Taken && send(i).answer != Refused(400) then i
    else FirstFailure(ingest, send, batches, i + 1)
  }

  function FateOf(ingest: Ingest, send: nat -> Send, batches: seq<seq<Day>>, i: nat): Fate
    requires i < |batches|
  {
    if FirstFailure(ingest, send, batches, 0) <= i || !ingest.schema(batches[i]) then Waiting
    else if send(i).answer == Taken then Sent
    else Dropped
  }

  /** The dates of the batches from `i` on with that fate, in order. */
  function DatesWith(ingest: Ingest, send: nat -> Send, batches: seq<seq<Day>>, fate: Fate, i: nat): seq<int>
    requires i <= |batches|
    decreases |batches| - i
  {
    if i == |batches| then []
    else
      (if FateOf(ingest, send, batches, i) == fate then DatesOf(batches[i]) else [])
      + DatesWith(ingest, send, batches, fate, i + 1)
  }

  lemma {:induction false} FailureIsLater(ingest: Ingest, send: nat -> Send, batches: seq<seq<Day>>, i: nat, j: nat)
    requires i <= j <= |batches| && j <= FirstFailure(ingest, send, batches, i)
    ensures FirstFailure(ingest, send, batches, i) == FirstFailure(ingest, send, batches, j)
    decreases j - i
  {
    if i < j {
      FailureIsLater(ingest, send, batches, i + 1, j);
    }
  }

  lemma {:induction false} AllWait(ingest: Ingest, send: nat -> Send, batches: seq<seq<Day>>, i: nat)
    requires FirstFailure(ingest, send, batches, 0) <= i <= |batches|
    ensures DatesWith(ingest, send, batches, Sent, i) == [] && DatesWith(ingest, send, batches, Dropped, i) == []
    ensures DatesWith(ingest, send, batches, Waiting, i) == DatesFrom(batches, i)
    decreases |batches| - i
  {
    if i < |batches| {
      AllWait(ingest, send, batches, i + 1);
    }
  }

  /**
   A sent batch was taken, one answered 400 dropped; the others wait: refused by the schema, or from
   the first failure on.
   */
  lemma {:induction false} SendsByFate(app: App, ingest: Ingest, send: nat -> Send, s: State, batches: seq<seq<Day>>,
          i: nat)
    requires i <= FirstFailure(ingest, send, batches, 0)
    ensures var out := SendFrom(app, ingest, send, s, batches, i);
            && out.taken == DatesWith(ingest, send, batches, Sent, i)
            && out.refused == DatesWith(ingest, send, batches, Dropped, i)
            && out.kept == DatesWith(ingest, send, batches, Waiting, i)
    decreases |batches| - i
  {
    hide Play, Without, Step;
    FailureIsLater(ingest, send, batches, 0, i);
    if i < |batches| {
      if FirstFailure(ingest, send, batches, i) == i {
        AllWait(ingest, send, batches, i);
      } else {
        var meanwhile := Play(app, s, send(i).during);
        var next := if !ingest.schema(batches[i]) then s else Forgotten(meanwhile, Set(DatesOf(batches[i])));
        SendsByFate(app, ingest, send, next, batches, i + 1);
      }
    }
  }

  // ---------------------------------------------------------------------------------------------
  // How often a date is listed

  function Times(dates: seq<int>, date: int): nat {
    if dates == [] then 0
    else Times(dates[..|dates| - 1], date) + if dates[|dates| - 1] == date then 1 else 0
  }

  lemma {:induction false} TimesInBoth(dates: seq<int>, more: seq<int>, date: int)
    ensures Times(dates + more, date) == Times(dates, date) + Times(more, date)
  {
    if more == [] {
      assert dates + more == dates;
    } else {
      var n := |more| - 1;
      TimesInBoth(dates, more[..n], date);
      assert (dates + more)[..|dates| + n] == dates + more[..n];
    }
  }

  lemma {:induction false} ListedIffTimes(dates: seq<int>, date: int)
    ensures date in dates <==> Times(dates, date) > 0
  {
    if dates != [] {
      ListedIffTimes(dates[..|dates| - 1], date);
      assert dates == dates[..|dates| - 1] + [dates[|dates| - 1]];
    }
  }

  /** How many of the records are for a date. */
  function TimesFor(records: seq<Record>, date: int): nat {
    if records == [] then 0
    else TimesFor(records[..|records| - 1], date) + if records[|records| - 1].date == date then 1 else 0
  }

  lemma {:induction false} TimesForBoth(records: seq<Record>, more: seq<Record>, date: int)
    ensures TimesFor(records + more, date) == TimesFor(records, date) + TimesFor(more, date)
  {
    if more == [] {
      assert records + more == records;
    } else {
      var n := |more| - 1;
      TimesForBoth(records, more[..n], date);
      assert (records + more)[..|records| + n] == records + more[..n];
    }
  }

  lemma {:induction false} RecordIffTimes(records: seq<Record>, date: int)
    ensures HasRecord(records, date) <==> TimesFor(records, date) > 0
  {
    if records != [] {
      var n := |records| - 1;
      RecordIffTimes(records[..n], date);
      if i :| 0 <= i < |records| && records[i].date == date {
        assert i < n ==> records[..n][i].date == date;
      }
    }
  }

  /** Every date of the batches has one of the three fates. */
  lemma {:induction false} FatesCover(ingest: Ingest, send: nat -> Send, batches: seq<seq<Day>>, i: nat, date: int)
    requires i <= |batches|
    ensures Times(DatesWith(ingest, send, batches, Sent, i), date)
              + Times(DatesWith(ingest, send, batches, Dropped, i), date)
            + Times(DatesWith(ingest, send, batches, Waiting, i), date)
         == Times(DatesFrom(batches, i), date)
    decreases |batches| - i
  {
    hide FateOf, DatesOf;
    if i < |batches| {
      FatesCover(ingest, send, batches, i + 1, date);
      TimesInBoth(DatesOf(batches[i]), DatesFrom(batches, i + 1), date);
      OneMoreFate(ingest, send, batches, Sent, i, date);
      OneMoreFate(ingest, send, batches, Dropped, i, date);
      OneMoreFate(ingest, send, batches, Waiting, i, date);
    }
  }

  lemma OneMoreFate(ingest: Ingest, send: nat -> Send, batches: seq<seq<Day>>, fate: Fate, i: nat, date: int)
    requires i < |batches|
    ensures Times(DatesWith(ingest, send, batches, fate, i), date)
         == (if FateOf(ingest, send, batches, i) == fate then Times(DatesOf(batches[i]), date) else 0)
            + Times(DatesWith(ingest, send, batches, fate, i + 1), date)
  {
    hide FateOf, DatesOf;
    var rest := DatesWith(ingest, send, batches, fate, i + 1);
    if FateOf(ingest, send, batches, i) == fate {
      TimesInBoth(DatesOf(batches[i]), rest, date);
    } else {
      assert [] + rest == rest;
    }
  }

  /** The batches from `i` on hold the dates that are left. */
  lemma {:induction false} DatesOfBatches(batches: seq<seq<Day>>, i: nat)
    requires i <= |batches|
    ensures DatesOf(Flatten(batches)) == DatesOf(Flatten(batches[..i])) + DatesFrom(batches, i)
    decreases |batches| - i
  {
    if i == |batches| {
      assert batches[..i] == batches;
    } else {
      DatesOfBatches(batches, i + 1);
      assert batches[..i + 1][..i] == batches[..i];
      var before := Flatten(batches[..i]);
      DatesOfBoth(before, batches[i]);
      hide DatesOf;
      assert Flatten(batches[..i + 1]) == before + batches[i];
      assert DatesOf(before) + DatesOf(batches[i]) + DatesFrom(batches, i + 1)
          == DatesOf(before) + (DatesOf(batches[i]) + DatesFrom(batches, i + 1));
    }
  }

  lemma DatesOfBoth(days: seq<Day>, more: seq<Day>)
    ensures DatesOf(days + more) == DatesOf(days) + DatesOf(more)
  {
  }

  // ---------------------------------------------------------------------------------------------
  // Conservation

  /** Each finished day is once among those taken, answered 400, never sendable or kept, and there are no others. */
  lemma FlushConserves(app: App, ingest: Ingest, s: State, f: Flush, date: int)
    requires Windowed(s.days)
    ensures TimesFor(Records(app, s, f), date) <= 1
    ensures var out := Flushed(app, ingest, s, f);
            var forgotten := Times(Hopeless(app, ingest, s, f), date) + Times(out.taken, date)
                + Times(out.refused, date);
            TimesFor(Records(app, s, f), date) == forgotten + Times(out.kept, date)
  {
    hide Play, Step, Without, FirstFailure, BatchesOf, Sendable, Unsendable, Finished, Times, TimesFor, DatesOf;
    RecordsAreFinished(app, s, f);
    var records := Records(app, s, f);
    var noted := Play(app, s, Opening(f));
    var days := Days(app, ingest, s, f);
    if records == [] {
      NoRecords(date);
    } else {
      var batches := BatchesOf(days);
      SendableOrNot(ingest, records, app.week(noted.firstDate.value), date);
      BatchesSplit(days);
      SendsByFate(app, ingest, f.send, Forgotten(noted, Set(Hopeless(app, ingest, s, f))), batches, 0);
      FatesCover(ingest, f.send, batches, 0, date);
      DatesOfBatches(batches, 0);
      assert batches[..0] == [] && DatesOf(Flatten([])) == [] by {
        NoDates();
      }
      assert [] + DatesFrom(batches, 0) == DatesFrom(batches, 0);
    }
  }

  lemma NoDates()
    ensures DatesOf(Flatten([])) == []
  {
  }

  lemma NoRecords(date: int)
    ensures TimesFor([], date) == 0 == Times([], date)
    ensures forall days :: Unsendable([], days) == []
  {
  }

  /** Only days before today are listed, each once. */
  lemma RecordsAreFinished(app: App, s: State, f: Flush)
    requires Windowed(s.days)
    ensures forall day :: day in Records(app, s, f) ==>
              day in Play(app, s, Opening(f)).days && day.date < DateOf(f.finishedAt)
    ensures forall date :: TimesFor(Records(app, s, f), date) <= 1
  {
    hide Play, Step, Finished;
    var noted := Play(app, s, Opening(f));
    PlayKeepsWindow(app, s, Opening(f));
    FinishedMembers(noted, DateOf(f.finishedAt));
    forall date ensures TimesFor(Records(app, s, f), date) <= 1 {
      FinishedOnce(noted, DateOf(f.finishedAt), date);
    }
  }

  lemma {:induction false} PlayKeepsWindow(app: App, s: State, actions: seq<Timed>)
    requires Windowed(s.days)
    ensures Windowed(Play(app, s, actions).days)
  {
    if actions != [] {
      PlayKeepsWindow(app, s, actions[..|actions| - 1]);
      StepKeepsWindow(app, Play(app, s, actions[..|actions| - 1]), actions[|actions| - 1]);
    }
  }

  lemma FinishedMembers(s: State, today: int)
    ensures forall day :: day in Finished(s, today) <==> day in s.days && day.date < today
  {
    BeforeHas(s.days, today);
    SortHas(Before(s.days, today));
  }

  lemma FinishedOnce(s: State, today: int, date: int)
    requires Ascending(s.days)
    ensures TimesFor(Finished(s, today), date) <= 1
  {
    BeforeThins(s.days, today);
    SortKeeps(Before(s.days, today), date);
    AscendingOnce(Before(s.days, today), date);
  }

  lemma {:induction false} BeforeThins(days: seq<Record>, today: int)
    ensures Thinned(Before(days, today), days)
  {
    if days != [] {
      BeforeThins(days[..|days| - 1], today);
      assert days == days[..|days| - 1] + [days[|days| - 1]];
    }
  }

  lemma {:induction false} AscendingOnce(days: seq<Record>, date: int)
    requires Ascending(days)
    ensures TimesFor(days, date) <= 1
    ensures (forall i :: 0 <= i < |days| ==> days[i].date < date) ==> TimesFor(days, date) == 0
  {
    if days != [] {
      AscendingOnce(days[..|days| - 1], date);
    }
  }

  lemma {:induction false} InsertKeeps(sorted: seq<Record>, day: Record, date: int)
    ensures TimesFor(Insert(sorted, day), date) == TimesFor(sorted, date) + if day.date == date then 1 else 0
  {
    if sorted == [] || sorted[0].date < day.date {
      TimesForBoth([day], sorted, date);
    } else {
      InsertKeeps(sorted[1..], day, date);
      TimesForBoth([sorted[0]], sorted[1..], date);
      TimesForBoth([sorted[0]], Insert(sorted[1..], day), date);
      assert sorted == [sorted[0]] + sorted[1..];
    }
  }

  lemma {:induction false} SortKeeps(days: seq<Record>, date: int)
    ensures TimesFor(NewestFirst(days), date) == TimesFor(days, date)
  {
    if days != [] {
      SortKeeps(days[..|days| - 1], date);
      InsertKeeps(NewestFirst(days[..|days| - 1]), days[|days| - 1], date);
    }
  }

  /** A record is sendable, or its date is among the unsendable ones. */
  lemma SendableOrNot(ingest: Ingest, records: seq<Record>, cohort: int, date: int)
    requires forall d :: TimesFor(records, d) <= 1
    ensures var days := Sendable(ingest, records, cohort);
            TimesFor(records, date) == Times(Unsendable(records, days), date) + Times(DatesOf(days), date)
  {
    var days := Sendable(ingest, records, cohort);
    forall i | 0 <= i < |records|
      ensures ingest.accepts(records[i], cohort) <==> HasDay(days, records[i].date)
    {
      SendableDates(ingest, records, cohort, i);
    }
    UnsendableAreRest(ingest, records, cohort, days, date);
  }

  lemma {:induction false} UnsendableAreRest(ingest: Ingest, records: seq<Record>, cohort: int, days: seq<Day>,
          date: int)
    requires forall i :: 0 <= i < |records| ==> (ingest.accepts(records[i], cohort) <==> HasDay(days, records[i].date))
    ensures TimesFor(records, date)
         == Times(Unsendable(records, days), date) + Times(DatesOf(Sendable(ingest, records, cohort)), date)
  {
    hide HasDay, DatesOf;
    if records != [] {
      UnsendableAreRest(ingest, records[..|records| - 1], cohort, days, date);
      assert ingest.accepts(records[|records| - 1], cohort) <==> HasDay(days, records[|records| - 1].date);
      OneMoreRecord(ingest, records, cohort, days, date);
    } else {
      NoDates();
    }
  }

  lemma OneMoreRecord(ingest: Ingest, records: seq<Record>, cohort: int, days: seq<Day>, date: int)
    requires records != []
    requires ingest.accepts(records[|records| - 1], cohort) <==> HasDay(days, records[|records| - 1].date)
    ensures var n := |records| - 1;
            Times(Unsendable(records, days), date) + Times(DatesOf(Sendable(ingest, records, cohort)), date)
            == Times(Unsendable(records[..n], days), date)
                + Times(DatesOf(Sendable(ingest, records[..n], cohort)), date)
            + if records[n].date == date then 1 else 0
  {
    hide HasDay, DatesOf, Times;
    var last := records[|records| - 1];
    var sendable := Sendable(ingest, records[..|records| - 1], cohort);
    var unsendable := Unsendable(records[..|records| - 1], days);
    var day := Day(last.date, ingest.json(last, cohort));
    OneDate(day);
    if ingest.accepts(last, cohort) {
      DatesOfBoth(sendable, [day]);
      TimesInBoth(DatesOf(sendable), [day.date], date);
    } else {
      TimesInBoth(unsendable, [day.date], date);
    }
  }

  lemma OneDate(day: Day)
    ensures DatesOf([day]) == [day.date]
    ensures forall date :: Times([day.date], date) == if day.date == date then 1 else 0
  {
    assert [day.date][..0] == [];
  }

  lemma {:induction false} SendableDates(ingest: Ingest, records: seq<Record>, cohort: int, i: nat)
    requires i < |records| && TimesFor(records, records[i].date) <= 1
    ensures ingest.accepts(records[i], cohort) <==> HasDay(Sendable(ingest, records, cohort), records[i].date)
  {
    var n := |records| - 1;
    var before := Sendable(ingest, records[..n], cohort);
    var days := Sendable(ingest, records, cohort);
    RecordIffTimes(records[..n], records[i].date);
    assert forall k :: 0 <= k < |before| ==> days[k] == before[k];
    if i < n {
      assert records[..n][i].date == records[i].date;
      SendableDates(ingest, records[..n], cohort, i);
      if HasDay(before, records[i].date) {
        var k :| 0 <= k < |before| && before[k].date == records[i].date;
        assert days[k].date == records[i].date;
      }
    } else {
      SendableAreRecords(ingest, records[..n], cohort);
      assert forall k :: 0 <= k < |before| ==> before[k].date != records[n].date;
      if ingest.accepts(records[n], cohort) {
        assert days[|before|].date == records[n].date;
      }
    }
  }

  ghost predicate HasRecord(records: seq<Record>, date: int) {
    exists i :: 0 <= i < |records| && records[i].date == date
  }

  lemma {:induction false} SendableAreRecords(ingest: Ingest, records: seq<Record>, cohort: int)
    ensures forall k :: 0 <= k < |Sendable(ingest, records, cohort)| ==>
              HasRecord(records, Sendable(ingest, records, cohort)[k].date)
  {
    if records != [] {
      var n := |records| - 1;
      SendableAreRecords(ingest, records[..n], cohort);
      forall date | HasRecord(records[..n], date) || date == records[n].date ensures HasRecord(records, date) {
        if HasRecord(records[..n], date) {
          var i :| 0 <= i < n && records[..n][i].date == date;
          assert records[i].date == date;
        }
      }
    }
  }
}
