/**
 Sending the finished days. While a flush waits for an answer the app goes on counting, so a
 flush interleaves with other actions. Whatever they are, it changes nothing but to forget the
 days that were sent, answered 400 or that the ingest would never take.
 */
module UsageFlush {
  import opened Options
  import opened UsageDays
  import opened UsageLedger
  import opened UsageBatches

  datatype Answer = Taken | Refused(status: nat) | Failed

  /** What happens while one batch is on its way, and how the wait ends. */
  datatype Send = Send(during: seq<Timed>, answer: Answer)

  /** What the ingest takes: a record as a day of some JSON text, and a batch. */
  datatype Ingest = Ingest(accepts: (Record, int) -> bool, json: (Record, int) -> string, schema: seq<Day> -> bool)

  datatype Reading = Reading(at: int, enabled: bool)

  /** What one flush meets: the switch as it begins, the wait for the session, the clock, and each send. */
  datatype Flush = Flush(begun: Reading, asking: seq<Timed>, signedIn: bool, noted: Reading, finishedAt: int,
      send: nat -> Send)

  function Play(app: App, s: State, actions: seq<Timed>): State {
    if actions == [] then s else Step(app, Play(app, s, actions[..|actions| - 1]), actions[|actions| - 1])
  }

  // ---------------------------------------------------------------------------------------------
  // What there is to send

  function Before(days: seq<Record>, today: int): seq<Record> {
    if days == [] then []
    else
      var last := days[|days| - 1];
      var before := Before(days[..|days| - 1], today);
      if last.date < today then before + [last] else before
  }

  function Insert(sorted: seq<Record>, day: Record): seq<Record> {
    if sorted == [] || sorted[0].date < day.date then [day] + sorted
    else [sorted[0]] + Insert(sorted[1..], day)
  }

  function NewestFirst(days: seq<Record>): seq<Record> {
    if days == [] then [] else Insert(NewestFirst(days[..|days| - 1]), days[|days| - 1])
  }

  function Finished(s: State, today: int): seq<Record> {
    NewestFirst(Before(s.days, today))
  }

  function Sendable(ingest: Ingest, records: seq<Record>, cohort: int): seq<Day> {
    if records == [] then []
    else
      var last := records[|records| - 1];
      var before := Sendable(ingest, records[..|records| - 1], cohort);
      if ingest.accepts(last, cohort) then before + [Day(last.date, ingest.json(last, cohort))] else before
  }

  predicate HasDay(days: seq<Day>, date: int) {
    exists i :: 0 <= i < |days| && days[i].date == date
  }

  /** The dates of the records none of the days is for. */
  function Unsendable(records: seq<Record>, days: seq<Day>): seq<int> {
    if records == [] then []
    else
      var last := records[|records| - 1];
      var before := Unsendable(records[..|records| - 1], days);
      if HasDay(days, last.date) then before else before + [last.date]
  }

  function DatesOf(days: seq<Day>): seq<int> {
    seq(|days|, i requires 0 <= i < |days| => days[i].date)
  }

  // ---------------------------------------------------------------------------------------------
  // A flush

  /**
   How the sends ended: the batches that went out, the dates taken, answered 400 and still waiting, and
   what happened meanwhile.
   */
  datatype Outcome = Outcome(state: State, sent: seq<seq<Day>>, taken: seq<int>, refused: seq<int>, kept: seq<int>,
                             during: seq<Timed>)

  function SendFrom(app: App, ingest: Ingest, send: nat -> Send, s: State, batches: seq<seq<Day>>, i: nat): Outcome
    requires i <= |batches|
    decreases |batches| - i
  {
    if i == |batches| then Outcome(s, [], [], [], [], [])
    else
      var dates := DatesOf(batches[i]);
      if !ingest.schema(batches[i]) then
        var rest := SendFrom(app, ingest, send, s, batches, i + 1);
        rest.(kept := dates + rest.kept)
      else
        var meanwhile := Play(app, s, send(i).during);
        match send(i).answer
        case Taken =>
          var rest := SendFrom(app, ingest, send, Forgotten(meanwhile, Set(dates)), batches, i + 1);
          rest.(sent := [batches[i]] + rest.sent, taken := dates + rest.taken, during := send(i).during + rest.during)
        case Refused(status) =>
          if status == 400 then
            var rest := SendFrom(app, ingest, send, Forgotten(meanwhile, Set(dates)), batches, i + 1);
            rest.(sent := [batches[i]] + rest.sent, refused := dates + rest.refused,
                  during := send(i).during + rest.during)
          else Outcome(meanwhile, [batches[i]], [], [], DatesFrom(batches, i), send(i).during)
        case Failed => Outcome(meanwhile, [batches[i]], [], [], DatesFrom(batches, i), send(i).during)
  }

  function Set(dates: seq<int>): set<int> {
    set date | date in dates
  }

  /** The dates of the batches from `i` on. */
  function DatesFrom(batches: seq<seq<Day>>, i: nat): seq<int>
    requires i <= |batches|
    decreases |batches| - i
  {
    if i == |batches| then [] else DatesOf(batches[i]) + DatesFrom(batches, i + 1)
  }

  function NoteOf(f: Flush): Timed {
    Timed(f.noted.at, f.noted.enabled, NoteSignedIn(f.signedIn))
  }

  /** The actions up to the moment the finished days are listed. */
  function Opening(f: Flush): seq<Timed> {
    if f.begun.enabled then f.asking + [NoteOf(f)] else [Timed(f.begun.at, false, Check)]
  }

  /** The finished days at that moment; none when the flush ends before. */
  function Records(app: App, s: State, f: Flush): seq<Record> {
    var noted := Play(app, s, Opening(f));
    if !f.begun.enabled || noted.firstDate == None then [] else Finished(noted, DateOf(f.finishedAt))
  }

  function Days(app: App, ingest: Ingest, s: State, f: Flush): seq<Day> {
    var noted := Play(app, s, Opening(f));
    if noted.firstDate == None then []
    else Sendable(ingest, Records(app, s, f), app.week(noted.firstDate.value))
  }

  function Hopeless(app: App, ingest: Ingest, s: State, f: Flush): seq<int> {
    Unsendable(Records(app, s, f), Days(app, ingest, s, f))
  }

  function Flushed(app: App, ingest: Ingest, s: State, f: Flush): Outcome {
    var noted := Play(app, s, Opening(f));
    if Records(app, s, f) == [] then Outcome(noted, [], [], [], [], [])
    else
      var hopeless := Set(Hopeless(app, ingest, s, f));
      SendFrom(app, ingest, f.send, Forgotten(noted, hopeless), BatchesOf(Days(app, ingest, s, f)), 0)
  }

  // ---------------------------------------------------------------------------------------------
  // What a flush sends

  /** The dates go down from one to the next. */
  predicate Descending(days: seq<Day>) {
    forall i, j :: 0 <= i < j < |days| ==> days[i].date > days[j].date
  }

  /**
   `days` are the kept days before `today` that the ingest takes, each with the text made of its own
   record and of the week of the first date, and no others.
   */
  ghost predicate AreFinished(app: App, ingest: Ingest, s: State, today: int, days: seq<Day>) {
    if s.firstDate == None then days == []
    else
      var cohort := app.week(s.firstDate.value);
      forall day :: day in days <==>
        exists record :: record in s.days && record.date < today && ingest.accepts(record, cohort)
                         && day == Day(record.date, ingest.json(record, cohort))
  }

  /**
   The batches that go out are those the schema lets through, up to the first one that fails, and
   what happens meanwhile is what happens while these are on their way.
   */
  ghost predicate GoOut(ingest: Ingest, send: nat -> Send, batches: seq<seq<Day>>, sent: seq<seq<Day>>,
      during: seq<Timed>, i: nat)
    requires i <= |batches|
    decreases |batches| - i
  {
    if i == |batches| then sent == [] && during == []
    else if !ingest.schema(batches[i]) then GoOut(ingest, send, batches, sent, during, i + 1)
    else
      && sent != [] && sent[0] == batches[i] && send(i).during <= during
      && if send(i).answer == Taken || send(i).answer == Refused(400)
         then GoOut(ingest, send, batches, sent[1..], during[|send(i).during|..], i + 1)
         else |sent| == 1 && |during| == |send(i).during|
  }

  lemma {:induction false} SentGoOut(app: App, ingest: Ingest, send: nat -> Send, s: State, batches: seq<seq<Day>>,
          i: nat)
    requires i <= |batches|
    ensures var out := SendFrom(app, ingest, send, s, batches, i);
            GoOut(ingest, send, batches, out.sent, out.during, i)
    decreases |batches| - i
  {
    hide Play, Without, Step;
    if i < |batches| {
      var meanwhile := Play(app, s, send(i).during);
      var next := if !ingest.schema(batches[i]) then s else Forgotten(meanwhile, Set(DatesOf(batches[i])));
      SentGoOut(app, ingest, send, next, batches, i + 1);
      var out, rest := SendFrom(app, ingest, send, s, batches, i), SendFrom(app, ingest, send, next, batches, i + 1);
      if out.during == send(i).during + rest.during {
        assert out.during[|send(i).during|..] == rest.during;
      }
    }
  }

  lemma {:induction false} BeforeHas(days: seq<Record>, today: int)
    ensures forall day :: day in Before(days, today) <==> day in days && day.date < today
  {
    if days != [] {
      BeforeHas(days[..|days| - 1], today);
      assert days == days[..|days| - 1] + [days[|days| - 1]];
    }
  }

  lemma {:induction false} SortHas(days: seq<Record>)
    ensures forall day :: day in NewestFirst(days) <==> day in days
  {
    if days != [] {
      SortHas(days[..|days| - 1]);
      InsertHas(NewestFirst(days[..|days| - 1]), days[|days| - 1]);
      assert days == days[..|days| - 1] + [days[|days| - 1]];
    }
  }

  lemma {:induction false} InsertHas(sorted: seq<Record>, day: Record)
    ensures forall other :: other in Insert(sorted, day) <==> other in sorted || other == day
  {
    if !(sorted == [] || sorted[0].date < day.date) {
      InsertHas(sorted[1..], day);
      assert sorted == [sorted[0]] + sorted[1..];
    }
  }

  /** The newest come first, each date once when they were ascending. */
  predicate Sorted(records: seq<Record>) {
    forall i, j :: 0 <= i < j < |records| ==> records[i].date > records[j].date
  }

  lemma {:induction false} InsertSorts(sorted: seq<Record>, day: Record)
    requires Sorted(sorted) && forall i :: 0 <= i < |sorted| ==> sorted[i].date != day.date
    ensures Sorted(Insert(sorted, day))
  {
    if !(sorted == [] || sorted[0].date < day.date) {
      InsertSorts(sorted[1..], day);
      InsertHas(sorted[1..], day);
      var rest := Insert(sorted[1..], day);
      forall j | 0 <= j < |rest| ensures sorted[0].date > rest[j].date {
        assert rest[j] in rest;
      }
    }
  }

  lemma {:induction false} SortSorts(days: seq<Record>)
    requires Ascending(days)
    ensures Sorted(NewestFirst(days))
  {
    if days != [] {
      var n := |days| - 1;
      var before := NewestFirst(days[..n]);
      SortSorts(days[..n]);
      SortHas(days[..n]);
      forall i | 0 <= i < |before| ensures before[i].date != days[n].date {
        assert before[i] in days[..n];
      }
      InsertSorts(before, days[n]);
    }
  }

  lemma {:induction false} BeforeAscends(days: seq<Record>, today: int)
    requires Ascending(days)
    ensures Ascending(Before(days, today))
  {
    if days != [] {
      var n := |days| - 1;
      var before := Before(days[..n], today);
      BeforeAscends(days[..n], today);
      BeforeHas(days[..n], today);
      forall i | 0 <= i < |before| ensures before[i].date < days[n].date {
        assert before[i] in days[..n];
      }
    }
  }

  lemma {:induction false} SendableHas(ingest: Ingest, records: seq<Record>, cohort: int)
    ensures forall day :: day in Sendable(ingest, records, cohort) <==>
              exists record :: record in records && ingest.accepts(record, cohort)
                               && day == Day(record.date, ingest.json(record, cohort))
  {
    if records != [] {
      SendableHas(ingest, records[..|records| - 1], cohort);
      assert records == records[..|records| - 1] + [records[|records| - 1]];
    }
  }

  lemma {:induction false} SendableDescends(ingest: Ingest, records: seq<Record>, cohort: int)
    requires Sorted(records)
    ensures Descending(Sendable(ingest, records, cohort))
  {
    if records != [] {
      var n := |records| - 1;
      var before := Sendable(ingest, records[..n], cohort);
      SendableDescends(ingest, records[..n], cohort);
      SendableHas(ingest, records[..n], cohort);
      forall i | 0 <= i < |before| ensures before[i].date > records[n].date {
        assert before[i] in before;
        var record :| record in records[..n] && before[i] == Day(record.date, ingest.json(record, cohort));
      }
    }
  }

  /** The days of a flush are the finished ones the ingest takes, and newest first. */
  lemma DaysAreFinished(app: App, ingest: Ingest, s: State, f: Flush)
    ensures var noted := Play(app, s, Opening(f));
            && AreFinished(app, ingest, noted, DateOf(f.finishedAt), Days(app, ingest, s, f))
            && (Ascending(noted.days) ==> Descending(Days(app, ingest, s, f)))
  {
    hide Play, Step;
    var noted, today := Play(app, s, Opening(f)), DateOf(f.finishedAt);
    if !f.begun.enabled {
      OneAction(app, s, Timed(f.begun.at, false, Check));
      SwitchedOff(app, s, f.begun.at);
      NothingKept(app, s, f.begun.at);
    }
    if noted.firstDate.Some? {
      var cohort := app.week(noted.firstDate.value);
      BeforeHas(noted.days, today);
      SortHas(Before(noted.days, today));
      SendableHas(ingest, Records(app, s, f), cohort);
      if Ascending(noted.days) {
        BeforeAscends(noted.days, today);
        SortSorts(Before(noted.days, today));
        SendableDescends(ingest, Records(app, s, f), cohort);
      }
    }
  }

  lemma NothingKept(app: App, s: State, at: int)
    ensures Step(app, s, Timed(at, false, Check)).days == []
  {
  }

  /**
   The flush itself, with the calls that come while it waits: the batches it makes hold the finished
   days, newest first, and go out in order up to the first that fails.
   */
  method FlushDesktopUsage(usage: DesktopUsage, ingest: Ingest, f: Flush, writes: bool)
    returns (batches: seq<seq<Day>>, sent: seq<seq<Day>>, taken: seq<int>)
    requires usage.Saved()
    modifies usage
    ensures usage.Saved()
    ensures usage.Model() == Flushed(usage.app, ingest, old(usage.Model()), f).state
    ensures sent == Flushed(usage.app, ingest, old(usage.Model()), f).sent
    ensures taken == Flushed(usage.app, ingest, old(usage.Model()), f).taken
    ensures var noted := Play(usage.app, old(usage.Model()), Opening(f));
            && AreFinished(usage.app, ingest, noted, DateOf(f.finishedAt), Flatten(batches))
            && (Ascending(noted.days) ==> Descending(Flatten(batches)))
    ensures forall other :: Splits(other, Flatten(batches)) ==> |batches| <= |other|
    ensures forall i :: 0 <= i < |batches| ==> Allowed(batches[i])
    ensures GoOut(ingest, f.send, batches, sent, Flushed(usage.app, ingest, old(usage.Model()), f).during, 0)
  {
    hide Finished, Sendable, Unsendable, BatchesOf, Step, Play, SendFrom, Splits, AreFinished, Descending, Allowed;
    ghost var start := usage.Model();
    batches, sent, taken := [], [], [];
    DaysAreFinished(usage.app, ingest, start, f);
    NoBatches();
    var counts := usage.Counting(f.begun.enabled, writes);
    if !counts {
      OneAction(usage.app, start, Timed(f.begun.at, false, Check));
      SwitchedOff(usage.app, start, f.begun.at);
      NothingListed(usage.app, ingest, start, f);
      return;
    }
    SwitchedOn(usage.app, start);
    PlayAll(usage, f.asking, writes);
    usage.NoteSignedIn(f.signedIn, f.noted.at, f.noted.enabled, writes);
    OneMore(usage.app, start, f.asking, NoteOf(f));
    var firstDate := usage.firstDate;
    var records := Finished(usage.Model(), DateOf(f.finishedAt));
    if |records| == 0 || firstDate == None {
      NothingListed(usage.app, ingest, start, f);
      return;
    }
    var days := Sendable(ingest, records, usage.app.week(firstDate.value));
    var hopeless := Unsendable(records, days);
    NothingToForget(usage.Model());
    if |hopeless| > 0 {
      usage.Forget(Set(hopeless));
    }
    batches := DesktopUsageBatchesOf(days);
    SplitKeeps(batches, days);
    SentGoOut(usage.app, ingest, f.send, usage.Model(), batches, 0);
    sent, taken := SendBatches(usage, ingest, f.send, batches, writes);
    usage.Persist(writes);
  }

  lemma NoBatches()
    ensures Flatten([]) == []
  {
  }

  lemma SplitKeeps(batches: seq<seq<Day>>, days: seq<Day>)
    requires Splits(batches, days)
    ensures Flatten(batches) == days && forall i :: 0 <= i < |batches| ==> Allowed(batches[i])
  {
  }

  lemma NothingListed(app: App, ingest: Ingest, s: State, f: Flush)
    requires Records(app, s, f) == []
    ensures Days(app, ingest, s, f) == []
    ensures Flushed(app, ingest, s, f) == Outcome(Play(app, s, Opening(f)), [], [], [], [], [])
  {
  }

  method SendBatches(usage: DesktopUsage, ingest: Ingest, send: nat -> Send, batches: seq<seq<Day>>, writes: bool)
    returns (sent: seq<seq<Day>>, taken: seq<int>)
    requires usage.Saved()
    modifies usage
    ensures usage.Saved()
    ensures usage.Model() == SendFrom(usage.app, ingest, send, old(usage.Model()), batches, 0).state
    ensures sent == SendFrom(usage.app, ingest, send, old(usage.Model()), batches, 0).sent
    ensures taken == SendFrom(usage.app, ingest, send, old(usage.Model()), batches, 0).taken
  {
    hide Play, Step, Without;
    sent, taken := [], [];
    ghost var whole := SendFrom(usage.app, ingest, send, usage.Model(), batches, 0);
    for i := 0 to |batches|
      invariant usage.Saved()
      invariant whole.state == SendFrom(usage.app, ingest, send, usage.Model(), batches, i).state
      invariant whole.sent == sent + SendFrom(usage.app, ingest, send, usage.Model(), batches, i).sent
      invariant whole.taken == taken + SendFrom(usage.app, ingest, send, usage.Model(), batches, i).taken
    {
      if !ingest.schema(batches[i]) {
        continue;
      }
      sent := sent + [batches[i]];
      PlayAll(usage, send(i).during, writes);
      match send(i).answer {
        case Taken =>
          usage.Forget(Set(DatesOf(batches[i])));
          taken := taken + DatesOf(batches[i]);
        case Refused(status) =>
          if status == 400 {
            usage.Forget(Set(DatesOf(batches[i])));
            continue;
          }
          return;
        case Failed =>
          return;
      }
    }
  }

  lemma OneAction(app: App, s: State, e: Timed)
    ensures Play(app, s, [e]) == Step(app, s, e)
  {
    assert [e][..0] == [];
    assert Play(app, s, []) == s;
  }

  lemma OneMore(app: App, s: State, actions: seq<Timed>, e: Timed)
    ensures Play(app, s, actions + [e]) == Step(app, Play(app, s, actions), e)
  {
    assert (actions + [e])[..|actions|] == actions;
  }

  lemma SwitchedOff(app: App, s: State, at: int)
    ensures Step(app, s, Timed(at, false, Check)) == Step(app, s, Timed(0, false, Check))
  {
  }

  lemma SwitchedOn(app: App, s: State)
    ensures Step(app, s, Timed(0, true, Check)) == s
    ensures Play(app, s, []) == s
  {
  }

  lemma NothingToForget(s: State)
    ensures Forgotten(s, Set([])) == s
  {
    WithoutNone(s.days);
  }

  lemma {:induction false} WithoutNone(days: seq<Record>)
    ensures Without(days, Set([])) == days
  {
    if days != [] {
      WithoutNone(days[..|days| - 1]);
    }
  }

  /** The calls other parts of the app make while the flush waits. */
  method PlayAll(usage: DesktopUsage, actions: seq<Timed>, writes: bool)
    requires usage.Saved()
    modifies usage
    ensures usage.Saved() && usage.Model() == Play(usage.app, old(usage.Model()), actions)
  {
    hide Step;
    ghost var start := usage.Model();
    assert actions[..0] == [];
    for i := 0 to |actions|
      invariant usage.Saved() && usage.Model() == Play(usage.app, start, actions[..i])
    {
      PlayOne(usage, actions[i], writes);
      assert actions[..i + 1][..i] == actions[..i];
    }
    assert actions[..|actions|] == actions;
  }

  method PlayOne(usage: DesktopUsage, e: Timed, writes: bool)
    requires usage.Saved()
    modifies usage
    ensures usage.Saved() && usage.Model() == Step(usage.app, old(usage.Model()), e)
  {
    hide Counted, Signed, Without;
    match e.action {
      case Check => var _ := usage.Counting(e.enabled, writes);
      case Count(counter) => usage.Count(counter, e.at, e.enabled, writes);
      case NoteSignedIn(signedIn) => usage.NoteSignedIn(signedIn, e.at, e.enabled, writes);
      case Forget(dates) => usage.Forget(dates);
    }
  }
}
