/**
 The dictation service: one helper process, at most one run at a time, and what the page that
 began a run gets to hear of it.
 */
module Speech {
  import opened Options

  datatype Kind = Ready | Transcript(text: string, complete: bool) | Failed(message: string) | Ended

  /** An event sent to a page; runs are numbered in the order they were accepted. */
  datatype Emission = Emission(run: nat, id: string, owner: nat, kind: Kind)

  // ---------------------------------------------------------------------------------------------
  // The traces allowed

  /** The run that may be heard of next, and whether it was said to have failed. */
  datatype At = At(run: nat, failed: bool)

  function Hear(at: At, e: Emission): Option<At> {
    if e.run != at.run then None
    else
      match e.kind
      case Ended => Some(At(at.run + 1, false))
      case Failed(_) => if at.failed then None else Some(At(at.run, true))
      case _ => if at.failed then None else Some(at)
  }

  /** Where a trace leads, run by run: what was recognised, then perhaps a failure, then the end. */
  function Reads(trace: seq<Emission>): Option<At> {
    if trace == [] then Some(At(0, false))
    else
      match Reads(trace[..|trace| - 1])
      case None => None
      case Some(at) => Hear(at, trace[|trace| - 1])
  }

  lemma ReadsMore(trace: seq<Emission>, e: Emission)
    ensures Reads(trace + [e]) == match Reads(trace) case None => None case Some(at) => Hear(at, e)
  {
    assert (trace + [e])[..|trace|] == trace;
  }

  ghost predicate EndsAt(trace: seq<Emission>, run: nat, i: int) {
    0 <= i < |trace| && trace[i].run == run && trace[i].kind == Ended
  }

  ghost predicate HasEnd(trace: seq<Emission>, run: nat) {
    exists i :: EndsAt(trace, run, i)
  }

  /** What a trace that reads says of every run. */
  ghost predicate WellTold(trace: seq<Emission>, at: At) {
    && (forall i, j :: 0 <= i < j < |trace| ==> trace[i].run <= trace[j].run)
    && (forall i :: 0 <= i < |trace| ==> trace[i].run <= at.run && (trace[i].kind == Ended ==> trace[i].run < at.run))
    && (forall run: nat :: run < at.run ==> HasEnd(trace, run))
    && (forall i, j :: 0 <= i < j < |trace| && trace[i].kind == Ended ==> trace[i].run < trace[j].run)
    && (forall i :: 0 <= i < |trace| && trace[i].kind.Failed? ==> FollowedByEnd(trace, i))
    && (at.failed <==> trace != [] && trace[|trace| - 1].kind.Failed?)
    && (at.failed ==> trace[|trace| - 1].run == at.run)
  }

  /** Nothing but the end comes after a failure. */
  ghost predicate FollowedByEnd(trace: seq<Emission>, i: nat)
    requires i < |trace|
  {
    i + 1 < |trace| ==> EndsAt(trace, trace[i].run, i + 1)
  }

  /**
   Runs are told one after the other; each that ended has one end, which comes last, and at most one
   failure, right before.
   */
  lemma {:induction false} TracesAreWellTold(trace: seq<Emission>)
    requires Reads(trace).Some?
    ensures WellTold(trace, Reads(trace).value)
  {
    if trace != [] {
      var n := |trace| - 1;
      assert trace[..n] + [trace[n]] == trace;
      TracesAreWellTold(trace[..n]);
      OneMoreTold(trace[..n], Reads(trace[..n]).value, trace[n], Reads(trace).value);
    }
  }

  lemma OneMoreTold(trace: seq<Emission>, at: At, e: Emission, next: At)
    requires WellTold(trace, at) && Hear(at, e) == Some(next)
    ensures WellTold(trace + [e], next)
  {
    var more := trace + [e];
    var n := |trace|;
    EndsStay(trace, e);
    if e.kind == Ended {
      assert EndsAt(more, e.run, n);
    }
    forall i | 0 <= i < |more| && more[i].kind.Failed? ensures FollowedByEnd(more, i) {
      if i + 1 < n {
        assert FollowedByEnd(trace, i) && EndsAt(trace, trace[i].run, i + 1);
      }
    }
  }

  lemma EndsStay(trace: seq<Emission>, e: Emission)
    ensures forall run: nat :: HasEnd(trace, run) ==> HasEnd(trace + [e], run)
  {
    forall run: nat | HasEnd(trace, run) ensures HasEnd(trace + [e], run) {
      var i :| EndsAt(trace, run, i);
      assert EndsAt(trace + [e], run, i);
    }
  }

  // ---------------------------------------------------------------------------------------------
  // What a helper says

  const MAX_BUFFER: nat := 1_000_000

  datatype Said = Garbage | Message(sessionId: string, said: Option<Kind>)

  function Newline(buffer: string): (i: nat)
    ensures i <= |buffer| && (i < |buffer| ==> buffer[i] == '\n')
    ensures forall j :: 0 <= j < i ==> buffer[j] != '\n'
  {
    if buffer == [] || buffer[0] == '\n' then 0 else 1 + Newline(buffer[1..])
  }

  /** Whether a message is refused, when `id` is the run's. */
  predicate Refuses(id: Option<string>, message: Said) {
    message.Garbage? || (id == Some(message.sessionId) && message.said.None?)
  }

  const INVALID := Failed("Speech helper sent an invalid message")

  /** What the page of run `id` hears of one message. */
  function Told(id: Option<string>, message: Said): (kinds: seq<Kind>)
    ensures id.None? ==> kinds == []
  {
    if Refuses(id, message) then if id.Some? then [INVALID, Ended] else []
    else if id != Some(message.sessionId) then []
    else if message.said.value.Failed? then [message.said.value, Ended]
    else [message.said.value]
  }

  /** Whether the run goes on after a message. */
  function RunAfter(id: Option<string>, message: Said): Option<string> {
    if Told(id, message) != [] && Told(id, message)[|Told(id, message)| - 1] == Ended then None else id
  }

  /** What the page hears of all whole lines of a buffer. */
  function ToldOf(parse: string -> Said, id: Option<string>, buffer: string): seq<Kind>
    decreases |buffer|
  {
    var newline := Newline(buffer);
    if newline == |buffer| then []
    else
      var message := parse(buffer[..newline]);
      if Refuses(id, message) then Told(id, message)
      else Told(id, message) + ToldOf(parse, RunAfter(id, message), buffer[newline + 1..])
  }

  /** Where the reading of a buffer ends: the run then, whether the helper is still listened to, and what is left. */
  datatype Reached = Reached(id: Option<string>, listens: bool, rest: string)

  function ReadOn(parse: string -> Said, id: Option<string>, buffer: string): Reached
    decreases |buffer|
  {
    var newline := Newline(buffer);
    if newline == |buffer| then Reached(id, true, buffer)
    else
      var message := parse(buffer[..newline]);
      if Refuses(id, message) || Fails(id, message) then Reached(None, false, "")
      else ReadOn(parse, RunAfter(id, message), buffer[newline + 1..])
  }

  /** The message says that the run failed. */
  predicate Fails(id: Option<string>, message: Said) {
    message.Message? && id == Some(message.sessionId) && message.said.Some? && message.said.value.Failed?
  }

  lemma FirstTold(parse: string -> Said, id: Option<string>, buffer: string)
    ensures var newline := Newline(buffer);
            if newline == |buffer| then
              ToldOf(parse, id, buffer) == [] && ReadOn(parse, id, buffer) == Reached(id, true, buffer)
            else
              var message, rest := parse(buffer[..newline]), buffer[newline + 1..];
              && ToldOf(parse, id, buffer)
                 == (if Refuses(id, message) then Told(id, message)
                     else Told(id, message) + ToldOf(parse, RunAfter(id, message), rest))
              && ReadOn(parse, id, buffer)
                 == if Refuses(id, message) || Fails(id, message) then Reached(None, false, "")
                    else ReadOn(parse, RunAfter(id, message), rest)
  {
    hide Newline, Refuses, Fails, Told, RunAfter;
  }

  lemma {:induction false} ToldNobody(parse: string -> Said, buffer: string)
    ensures ToldOf(parse, None, buffer) == []
    decreases |buffer|
  {
    hide ToldOf, Newline;
    FirstTold(parse, None, buffer);
    var newline := Newline(buffer);
    if newline < |buffer| {
      ToldNobody(parse, buffer[newline + 1..]);
    }
  }

  lemma NewlineAgain(buffer: string, more: string)
    requires Newline(buffer) < |buffer|
    ensures Newline(buffer + more) == Newline(buffer)
    ensures (buffer + more)[..Newline(buffer)] == buffer[..Newline(buffer)]
    ensures (buffer + more)[Newline(buffer) + 1..] == buffer[Newline(buffer) + 1..] + more
  {
    var n := Newline(buffer);
    assert (buffer + more)[n] == '\n' && forall j :: 0 <= j < n ==> (buffer + more)[j] != '\n';
    NewlineIs(buffer + more, n);
  }

  lemma {:induction false} NewlineIs(buffer: string, n: nat)
    requires n <= |buffer| && (n < |buffer| ==> buffer[n] == '\n')
    requires forall j :: 0 <= j < n ==> buffer[j] != '\n'
    ensures Newline(buffer) == n
  {
    if n > 0 {
      NewlineIs(buffer[1..], n - 1);
    }
  }

  /** Text that comes in two pieces is heard as if it came in one. */
  lemma {:induction false} PiecesTell(parse: string -> Said, id: Option<string>, buffer: string, more: string)
    ensures var reached := ReadOn(parse, id, buffer);
            ToldOf(parse, id, buffer + more)
            == ToldOf(parse, id, buffer)
               + if reached.listens then ToldOf(parse, reached.id, reached.rest + more) else []
    ensures var reached := ReadOn(parse, id, buffer);
            ReadOn(parse, id, buffer + more)
            == if reached.listens then ReadOn(parse, reached.id, reached.rest + more) else Reached(None, false, "")
    decreases |buffer|
  {
    hide ToldOf, ReadOn, Newline, Told;
    FirstTold(parse, id, buffer);
    var newline := Newline(buffer);
    if newline < |buffer| {
      NewlineAgain(buffer, more);
      FirstTold(parse, id, buffer + more);
      var message, rest := parse(buffer[..newline]), buffer[newline + 1..];
      if Refuses(id, message) {
      } else if Fails(id, message) {
        FailureEnds(id, message);
        ToldNobody(parse, rest + more);
        ToldNobody(parse, rest);
      } else {
        PiecesTell(parse, RunAfter(id, message), rest, more);
        var reached := ReadOn(parse, id, buffer);
        Associates(Told(id, message), ToldOf(parse, RunAfter(id, message), rest),
                   if reached.listens then ToldOf(parse, reached.id, reached.rest + more) else []);
      }
    }
  }

  lemma FailureEnds(id: Option<string>, message: Said)
    requires Fails(id, message)
    ensures RunAfter(id, message) == None && !Refuses(id, message)
  {
  }

  // Whole lines

  function Text(lines: seq<string>): string {
    if lines == [] then "" else lines[0] + "\n" + Text(lines[1..])
  }

  function Together(chunks: seq<string>): string {
    if chunks == [] then "" else chunks[0] + Together(chunks[1..])
  }

  /** What is left behind the last newline. */
  function Tail(buffer: string): string
    decreases |buffer|
  {
    var newline := Newline(buffer);
    if newline == |buffer| then buffer else Tail(buffer[newline + 1..])
  }

  /** No chunk makes the text that is not yet split too large. */
  predicate Fits(buffer: string, chunks: seq<string>)
    decreases |chunks|
  {
    chunks == [] || (|buffer + chunks[0]| <= MAX_BUFFER && Fits(Tail(buffer + chunks[0]), chunks[1..]))
  }

  /** A line that ends nothing: of another session, or something to tell of this one. */
  predicate Passes(parse: string -> Said, id: string, line: string) {
    var message := parse(line);
    && '\n' !in line && message.Message?
    && (message.sessionId == id ==> message.said.Some? && (message.said.value.Ready? || message.said.value.Transcript?))
  }

  /** What the lines of one session say, in order. */
  function Own(parse: string -> Said, id: string, lines: seq<string>): seq<Kind>
    requires forall i :: 0 <= i < |lines| ==> Passes(parse, id, lines[i])
  {
    if lines == [] then []
    else if Passes(parse, id, lines[0]) && parse(lines[0]).sessionId == id then
      [parse(lines[0]).said.value] + Own(parse, id, lines[1..])
    else Own(parse, id, lines[1..])
  }

  lemma OneLine(line: string, more: string)
    requires '\n' !in line
    ensures var text := line + "\n" + more;
            Newline(text) == |line| < |text| && text[..|line|] == line && text[|line| + 1..] == more
  {
    var text := line + "\n" + more;
    forall j | 0 <= j < |line| ensures text[j] != '\n' {
      assert text[j] == line[j] && line[j] in line;
    }
    NewlineIs(text, |line|);
  }

  /** Lines that end nothing are told each as it is, those of other sessions left out. */
  lemma {:induction false} LinesAreTold(parse: string -> Said, id: string, lines: seq<string>)
    requires forall i :: 0 <= i < |lines| ==> Passes(parse, id, lines[i])
    ensures ToldOf(parse, Some(id), Text(lines)) == Own(parse, id, lines)
    ensures ReadOn(parse, Some(id), Text(lines)) == Reached(Some(id), true, "")
  {
    hide ToldOf, ReadOn, Newline;
    FirstTold(parse, Some(id), Text(lines));
    if lines != [] {
      OneLine(lines[0], Text(lines[1..]));
      assert Passes(parse, id, lines[0]);
      LinesAreTold(parse, id, lines[1..]);
    }
  }

  lemma {:induction false} TailIsLeft(parse: string -> Said, id: Option<string>, buffer: string)
    ensures ReadOn(parse, id, buffer).listens ==> ReadOn(parse, id, buffer).rest == Tail(buffer)
    ensures Newline(Tail(buffer)) == |Tail(buffer)|
    decreases |buffer|
  {
    hide ToldOf, ReadOn, Newline, Refuses, Fails, RunAfter;
    FirstTold(parse, id, buffer);
    var newline := Newline(buffer);
    if newline < |buffer| {
      TailIsLeft(parse, RunAfter(id, parse(buffer[..newline])), buffer[newline + 1..]);
    }
  }

  lemma Associates(told: seq<Kind>, kinds: seq<Kind>, later: seq<Kind>)
    ensures told + (kinds + later) == told + kinds + later
  {
  }

  // ---------------------------------------------------------------------------------------------
  // The service

  datatype Run = Run(number: nat, id: string, owner: nat, ready: bool, stopping: bool, deadline: nat)

  datatype Purpose = Deadline(message: string) | Idle

  /** How writing to the helper goes. */
  datatype Write = Sent | Unavailable | Clogged

  const TOO_SLOW := Failed("Speech recognition cannot keep up with the microphone")

  function Tagged(run: Run, kinds: seq<Kind>): seq<Emission> {
    seq(|kinds|, i requires 0 <= i < |kinds| => Emission(run.number, run.id, run.owner, kinds[i]))
  }

  /** What one run adds to the trace. */
  function Heard(run: Option<Run>, kinds: seq<Kind>): seq<Emission> {
    if run.Some? then Tagged(run.value, kinds) else []
  }

  lemma OneTag(run: Run, kind: Kind)
    ensures Tagged(run, [kind]) == [Emission(run.number, run.id, run.owner, kind)]
  {
  }

  class SpeechService {
    const parse: string -> Said
    var child: Option<nat>
    var run: Option<Run>
    var idle: Option<nat>
    // The timers set and not cleared or fired, the text not yet split, and the processes.
    var timers: map<nat, Purpose>
    var nextTimer: nat
    var buffers: map<nat, string>
    var spawned: nat
    var killed: set<nat>
    // The id and page of each run so far, and everything the pages heard.
    var starts: seq<(string, nat)>
    ghost var trace: seq<Emission>

    /** The timers are those of the run or of the idle helper, and no helper but the current one is left alive. */
    ghost predicate Owns()
      reads this`run, this`idle, this`timers, this`nextTimer, this`child, this`spawned, this`killed
    {
      && !(run.Some? && idle.Some?)
      && (run.Some? ==> run.value.deadline < nextTimer)
      && (idle.Some? ==> idle.value < nextTimer)
      && timers.Keys == (if run.Some? then {run.value.deadline} else {}) + (if idle.Some? then {idle.value} else {})
      && (run.Some? ==> timers[run.value.deadline].Deadline?)
      && (idle.Some? ==> timers[idle.value] == Idle)
      && (child.Some? ==> child.value < spawned)
      && (forall helper :: helper in killed ==> helper < spawned)
      && forall helper: nat :: helper < spawned ==> (helper in killed <==> child != Some(helper))
    }

    /**
     Every run but the current one was told to its end; `failed` says that the current one was told
     to have failed.
     */
    ghost predicate Tells(failed: bool)
      reads this`run, this`trace, this`starts
    {
      && (run.Some? ==> starts != [])
      && Reads(trace) == Some(At(if run.Some? then |starts| - 1 else |starts|, failed))
      && (run.Some? ==> run.value.number == |starts| - 1 && starts[run.value.number] == (run.value.id, run.value.owner))
      && (failed ==> run.Some?)
      && forall e :: e in trace ==> e.run < |starts| && starts[e.run] == (e.id, e.owner)
    }

    ghost predicate Valid()
      reads this`run, this`idle, this`timers, this`nextTimer, this`child, this`spawned, this`killed, this`trace,
              this`starts
    {
      Owns() && Tells(false)
    }

    constructor (parse: string -> Said)
      ensures Valid() && trace == [] && run == None && child == None
    {
      this.parse := parse;
      child, run, idle := None, None, None;
      timers, nextTimer, buffers, spawned, killed := map[], 0, map[], 0, {};
      trace, starts := [], [];
    }

    method SetTimeout(purpose: Purpose) returns (timer: nat)
      modifies this`timers, this`nextTimer
      ensures timer == old(nextTimer) && nextTimer == timer + 1 && timers == old(timers)[timer := purpose]
    {
      timer := nextTimer;
      nextTimer := timer + 1;
      timers := timers[timer := purpose];
    }

    method ClearTimeout(timer: nat)
      modifies this`timers
      ensures timers == old(timers) - {timer}
    {
      timers := timers - {timer};
    }

    /** Clears the timers and stops the helper. */
    method Release()
      requires Owns()
      modifies this`run, this`idle, this`child, this`timers, this`killed
      ensures Owns() && run == None && idle == None && child == None && timers == map[]
    {
      if run.Some? {
        ClearTimeout(run.value.deadline);
      }
      run := None;
      if idle.Some? {
        ClearTimeout(idle.value);
        idle := None;
      }
      if child.Some? {
        killed := killed + {child.value};
      }
      child := None;
    }

    /** Ends the run, if there is one, and the helper. */
    method Dispose()
      requires Owns() && exists failed :: Tells(failed)
      modifies this`run, this`idle, this`child, this`timers, this`killed, this`trace
      ensures Valid() && run == None && idle == None && child == None && timers == map[]
      ensures trace == old(trace) + Heard(old(run), [Ended])
    {
      hide Reads, Tagged, Owns;
      var ending := run;
      Release();
      if ending.Some? {
        OneTag(ending.value, Ended);
        ReadsMore(trace, Tagged(ending.value, [Ended])[0]);
        trace := trace + Tagged(ending.value, [Ended]);
      }
    }

    method Fail(message: string)
      requires Valid()
      modifies this`run, this`idle, this`child, this`timers, this`killed, this`trace
      ensures Valid() && run == None && idle == None && child == None && timers == map[]
      ensures trace == old(trace) + Heard(old(run), [Failed(message), Ended])
    {
      hide Owns, Reads;
      if run.Some? {
        OneTag(run.value, Failed(message));
        ReadsMore(trace, Tagged(run.value, [Failed(message)])[0]);
        trace := trace + Tagged(run.value, [Failed(message)]);
      }
      assert Tells(run.Some?);
      HeardMore(run, run, [Failed(message)], [Ended]);
      Dispose();
    }

    /** The run ended; the helper stays a minute for the next one. */
    method Complete()
      requires Owns()
      modifies this`run, this`idle, this`timers, this`nextTimer
      ensures Owns() && run == None && idle.Some? && timers == map[idle.value := Idle]
    {
      if run.Some? {
        ClearTimeout(run.value.deadline);
      }
      run := None;
      if idle.Some? {
        ClearTimeout(idle.value);
      }
      var timer := SetTimeout(Idle);
      idle := Some(timer);
    }

    /** One message; false when it is refused, which changes nothing by itself. */
    method Event(message: Said) returns (accepted: bool)
      requires Valid()
      modifies this`run, this`idle, this`child, this`timers, this`nextTimer, this`killed, this`trace
      ensures Valid() && accepted == !Refuses(Id(old(run)), message)
      ensures !accepted <==>
                message.Garbage?
                || (old(run).Some? && message.sessionId == old(run).value.id && message.said.None?)
      ensures !accepted || old(run).None? || message.sessionId != old(run).value.id ==> unchanged(this)
      ensures accepted && old(run).Some? && message.sessionId == old(run).value.id ==>
                var heard := old(run).value;
                && trace == old(trace) + (
                     match message.said.value
                     case Failed(reason) =>
                       [Emission(heard.number, heard.id, heard.owner, Failed(reason)),
                        Emission(heard.number, heard.id, heard.owner, Ended)]
                     case kind => [Emission(heard.number, heard.id, heard.owner, kind)])
                && (run.None? <==> message.said.value.Ended? || message.said.value.Failed?)
                && child == (if message.said.value.Failed? then None else old(child))
      ensures trace == old(trace) + if accepted then Heard(old(run), Told(Id(old(run)), message)) else []
      ensures Id(run) == if accepted then RunAfter(Id(old(run)), message) else Id(old(run))
      ensures if accepted then run.Some? ==> SameRun(old(run), run) else run == old(run)
    {
      hide Valid, Owns, Tells;
      if message.Garbage? {
        return false;
      }
      if run.None? || message.sessionId != run.value.id {
        return true;
      }
      if message.said.None? {
        return false;
      }
      accepted := true;
      match message.said.value {
        case Ready => BecomeReady();
        case Transcript(text, complete) => Tell(Transcript(text, complete));
        case Ended => EndRun();
        case Failed(reason) => Fail(reason);
      }
    }

    /** The time to load gives way to the time a dictation may take. */
    method BecomeReady()
      requires Valid() && run.Some?
      modifies this`run, this`timers, this`nextTimer, this`trace
      ensures Valid() && run == Some(old(run.value).(ready := true, deadline := old(nextTimer)))
      ensures timers == map[run.value.deadline := Deadline("Dictation exceeded ten minutes")]
      ensures trace == old(trace) + Tagged(run.value, [Ready])
    {
      hide Reads;
      ClearTimeout(run.value.deadline);
      var timer := SetTimeout(Deadline("Dictation exceeded ten minutes"));
      run := Some(run.value.(ready := true, deadline := timer));
      Tell(Ready);
    }

    method EndRun()
      requires Valid() && run.Some?
      modifies this`run, this`idle, this`timers, this`nextTimer, this`trace
      ensures Valid() && run.None? && idle.Some? && timers == map[idle.value := Idle]
      ensures trace == old(trace) + Tagged(old(run).value, [Ended])
    {
      hide Reads;
      OneTag(run.value, Ended);
      ReadsMore(trace, Tagged(run.value, [Ended])[0]);
      ghost var ending := Tagged(run.value, [Ended]);
      Complete();
      trace := trace + ending;
    }

    /** The page of the run hears something that does not end it. */
    ghost method Tell(kind: Kind)
      requires Valid() && run.Some? && (kind.Ready? || kind.Transcript?)
      modifies this`trace
      ensures Valid() && trace == old(trace) + Tagged(run.value, [kind])
    {
      hide Reads;
      OneTag(run.value, kind);
      ReadsMore(trace, Tagged(run.value, [kind])[0]);
      trace := trace + Tagged(run.value, [kind]);
    }

    /** Text from a helper; only the current one is listened to. */
    method Data(helper: nat, text: string)
      requires Valid()
      modifies this`run, this`idle, this`child, this`timers, this`nextTimer, this`killed, this`trace, this`buffers
      ensures Valid()
      ensures old(child) != Some(helper) ==> unchanged(this)
      ensures old(child) == Some(helper) ==>
                trace == old(trace) + Heard(old(run), ToldOfData(parse, Id(old(run)), old(Buffer(helper)), text))
      ensures old(child) == Some(helper) && |old(Buffer(helper)) + text| > MAX_BUFFER ==> child == None && run == None
      ensures old(child) == Some(helper) && |old(Buffer(helper)) + text| <= MAX_BUFFER ==>
                Reaches(helper, ReadOn(parse, Id(old(run)), old(Buffer(helper)) + text))
      ensures run.Some? ==> SameRun(old(run), run)
    {
      if child != Some(helper) {
        return;
      }
      var buffer := Buffer(helper) + text;
      buffers := buffers[helper := buffer];
      if |buffer| > MAX_BUFFER {
        Fail("Speech helper sent an oversized message");
        return;
      }
      Lines(helper, buffer);
    }

    /** The service stands where reading led: it listens to the helper with this run and text left, or to none. */
    ghost predicate Reaches(helper: nat, reached: Reached)
      reads this`child, this`run, this`buffers
    {
      Id(run) == reached.id
      && if reached.listens then child == Some(helper) && Buffer(helper) == reached.rest else child == None
    }

    /** One whole line after the other, until one is refused. */
    method Lines(helper: nat, text: string)
      requires Valid() && child == Some(helper) && Buffer(helper) == text
      modifies this`run, this`idle, this`child, this`timers, this`nextTimer, this`killed, this`trace, this`buffers
      ensures Valid() && trace == old(trace) + Heard(old(run), ToldOf(parse, Id(old(run)), text))
      ensures Reaches(helper, ReadOn(parse, Id(old(run)), text))
      ensures run.Some? ==> SameRun(old(run), run)
    {
      hide Valid, Owns, Tells, Heard, Told, ToldOf, ReadOn, Refuses, RunAfter, Fails, Newline;
      var buffer := text;
      ghost var told: seq<Kind> := [];
      NothingHeard(run);
      while Newline(buffer) < |buffer|
        invariant Valid()
        invariant trace == old(trace) + Heard(old(run), told)
        invariant ToldOf(parse, Id(old(run)), text) == told + ToldOf(parse, Id(run), buffer)
        invariant run.Some? ==> SameRun(old(run), run)
        invariant if child == Some(helper)
                  then Buffer(helper) == buffer && ReadOn(parse, Id(old(run)), text) == ReadOn(parse, Id(run), buffer)
                  else child == None && run == None && ReadOn(parse, Id(old(run)), text) == Reached(None, false, "")
        decreases |buffer|
      {
        var newline := Newline(buffer);
        ghost var before := run;
        ghost var kinds := Told(Id(before), parse(buffer[..newline]));
        var line, rest := buffer[..newline], buffer[newline + 1..];
        FirstLine(parse, Id(run), buffer, told);
        FirstTold(parse, Id(run), buffer);
        HeardMore(old(run), before, told, kinds);
        told := told + kinds;
        var accepted := Line(helper, line, rest);
        buffer := rest;
        if !accepted {
          return;
        }
      }
      FirstTold(parse, Id(run), buffer);
      assert told + [] == told;
    }

    /** One line, with the text behind it kept for later; a line that is refused fails the run. */
    method Line(helper: nat, line: string, rest: string) returns (accepted: bool)
      requires Valid() && (child == Some(helper) || (child == None && run == None))
      modifies this`run, this`idle, this`child, this`timers, this`nextTimer, this`killed, this`trace, this`buffers
      ensures Valid() && accepted == !Refuses(Id(old(run)), parse(line))
      ensures trace == old(trace) + Heard(old(run), Told(Id(old(run)), parse(line)))
      ensures Id(run) == if accepted then RunAfter(Id(old(run)), parse(line)) else None
      ensures child == if accepted && !Fails(Id(old(run)), parse(line)) then old(child) else None
      ensures child == Some(helper) || (child == None && run == None)
      ensures buffers == old(buffers)[helper := rest]
      ensures run.Some? ==> SameRun(old(run), run)
    {
      hide Valid, Owns, Tells, Heard;
      ghost var before := run;
      buffers := buffers[helper := rest];
      accepted := Event(parse(line));
      if !accepted {
        RefusedTells(before, parse(line));
        Fail("Speech helper sent an invalid message");
      }
    }

    function Buffer(helper: nat): string
      reads this`buffers
    {
      if helper in buffers then buffers[helper] else ""
    }

    // -------------------------------------------------------------------------------------------
    // What the pages and the processes do

    /**
     A new run, on the helper there is or a new one; `spawns` is whether that starts, `write` how
     the first message goes.
     */
    method Start(id: string, owner: nat, wellFormed: bool, spawns: bool, write: Write) returns (accepted: bool)
      requires Valid()
      modifies this
      ensures Valid()
      ensures accepted == (wellFormed && old(run).None?)
      ensures !accepted ==> unchanged(this)
      ensures accepted ==> starts == old(starts) + [(id, owner)] && idle == None
      ensures accepted ==> (run.None? <==> write == Clogged && (old(child).Some? || spawns))
      ensures accepted && run.Some? ==>
                && run == Some(Run(|old(starts)|, id, owner, false, false, old(nextTimer)))
                && timers == map[old(nextTimer) := Deadline("Speech model took too long to load")]
                && child == (if old(child).Some? || !spawns then old(child) else Some(old(spawned)))
                && trace == old(trace)
      ensures accepted && run.None? ==>
                && child == None && timers == map[]
                && trace == old(trace) + Tagged(Run(|old(starts)|, id, owner, false, false, 0), [TOO_SLOW, Ended])
    {
      hide Valid, Owns, Tells;
      accepted := wellFormed && run.None?;
      if !accepted {
        return;
      }
      Accept(id, owner);
      if child.None? {
        if !spawns {
          return;
        }
        Spawn();
      }
      var sent := WriteTo(write);
    }

    method Accept(id: string, owner: nat)
      requires Valid() && run.None?
      modifies this`run, this`idle, this`timers, this`nextTimer, this`starts
      ensures Valid() && idle == None && starts == old(starts) + [(id, owner)]
      ensures run == Some(Run(|old(starts)|, id, owner, false, false, old(nextTimer)))
      ensures timers == map[old(nextTimer) := Deadline("Speech model took too long to load")]
    {
      hide Reads;
      if idle.Some? {
        ClearTimeout(idle.value);
        idle := None;
      }
      var timer := SetTimeout(Deadline("Speech model took too long to load"));
      run := Some(Run(|starts|, id, owner, false, false, timer));
      starts := starts + [(id, owner)];
    }

    method Spawn()
      requires Valid() && child.None?
      modifies this`child, this`spawned
      ensures Valid() && child == Some(old(spawned)) && spawned == old(spawned) + 1
    {
      hide Tells;
      child := Some(spawned);
      spawned := spawned + 1;
    }

    /** A message to the helper; one that does not keep up ends the run. */
    method WriteTo(write: Write) returns (sent: bool)
      requires Valid()
      modifies this`run, this`idle, this`child, this`timers, this`killed, this`trace
      ensures Valid()
      ensures sent == (child.Some? && write == Sent)
      ensures write != Clogged || old(child).None? ==> unchanged(this)
      ensures write == Clogged && old(child).Some? ==>
                && run == None && child == None && idle == None && timers == map[]
                && trace == old(trace) + Heard(old(run), [TOO_SLOW, Ended])
    {
      if child.None? || write == Unavailable {
        return false;
      }
      if write == Clogged {
        Fail("Speech recognition cannot keep up with the microphone");
        return false;
      }
      return true;
    }

    /** Sound of the microphone, which only a run that is ready and not stopping takes. */
    method Samples(id: string, wellFormed: bool, write: Write) returns (sent: bool)
      requires Valid()
      modifies this`run, this`idle, this`child, this`timers, this`killed, this`trace
      ensures Valid()
      ensures sent == (old(Takes(id)) && wellFormed && old(child).Some? && write == Sent)
      ensures old(Takes(id)) && wellFormed && old(child).Some? && write == Clogged ==>
                && run == None && child == None && timers == map[]
                && trace == old(trace) + Heard(old(run), [TOO_SLOW, Ended])
      ensures !(old(Takes(id)) && wellFormed && old(child).Some? && write == Clogged) ==> unchanged(this)
    {
      if run.None? || run.value.id != id || !run.value.ready || run.value.stopping {
        return false;
      }
      if !wellFormed {
        return false;
      }
      sent := WriteTo(write);
    }

    predicate Takes(id: string)
      reads this`run
    {
      Id(run) == Some(id) && run.value.ready && !run.value.stopping
    }

    /** A run that is ready gets half a minute to finish; one that is not is cancelled. */
    method Stop(id: string, write: Write)
      requires Valid()
      modifies this`run, this`idle, this`child, this`timers, this`nextTimer, this`killed, this`trace
      ensures Valid()
      ensures Id(old(run)) != Some(id) || old(run).value.stopping ==> unchanged(this)
      ensures Id(old(run)) == Some(id) && !old(run).value.ready && !old(run).value.stopping ==>
                && run == None && child == None && timers == map[]
                && trace == old(trace) + Heard(old(run), [Ended])
      ensures old(Takes(id)) && !(old(child).Some? && write == Clogged) ==>
                && run == Some(old(run).value.(stopping := true, deadline := old(nextTimer)))
                && timers == map[old(nextTimer) := Deadline("Speech recognition did not finish")]
                && child == old(child) && trace == old(trace)
      ensures old(Takes(id)) && old(child).Some? && write == Clogged ==>
                && run == None && child == None && timers == map[]
                && trace == old(trace) + Heard(old(run), [TOO_SLOW, Ended])
    {
      hide Reads;
      if run.None? || run.value.id != id || run.value.stopping {
        return;
      }
      if !run.value.ready {
        Cancel(id);
        return;
      }
      ClearTimeout(run.value.deadline);
      var timer := SetTimeout(Deadline("Speech recognition did not finish"));
      run := Some(run.value.(stopping := true, deadline := timer));
      var sent := WriteTo(write);
    }

    method Cancel(id: string)
      requires Valid()
      modifies this`run, this`idle, this`child, this`timers, this`killed, this`trace
      ensures Valid()
      ensures if Id(old(run)) == Some(id)
              then run == None && child == None && timers == map[] && trace == old(trace) + Heard(old(run), [Ended])
              else unchanged(this)
    {
      if Id(run) != Some(id) {
        return;
      }
      Dispose();
    }

    /** A write of run `number` failed later on. */
    method WriteFailed(number: nat, message: string)
      requires Valid()
      modifies this`run, this`idle, this`child, this`timers, this`killed, this`trace
      ensures Valid()
      ensures if old(run).Some? && old(run).value.number == number
              then run == None && child == None && timers == map[]
                   && trace == old(trace) + Heard(old(run), [Failed(message), Ended])
              else unchanged(this)
    {
      if run.Some? && run.value.number == number {
        Fail(message);
      }
    }

    /** A helper ended or its pipes broke. */
    method HelperFailed(helper: nat, message: string)
      requires Valid()
      modifies this`run, this`idle, this`child, this`timers, this`killed, this`trace
      ensures Valid()
      ensures old(child) != Some(helper) ==> unchanged(this)
      ensures old(child) == Some(helper) ==>
                timers == map[] && child == None && run == None
                    && trace == old(trace) + Heard(old(run), [Failed(message), Ended])
    {
      if child == Some(helper) {
        Fail(message);
      }
    }

    /** A timer that is still set fires. */
    method Fires(timer: nat)
      requires Valid() && timer in timers
      modifies this`run, this`idle, this`child, this`timers, this`killed, this`trace
      ensures Valid() && run == None && child == None && timers == map[]
      ensures trace == old(trace) + if old(timers[timer]).Idle? then []
                                    else Heard(old(run), [Failed(old(timers[timer]).message), Ended])
    {
      hide Tells;
      match timers[timer] {
        case Idle => Dispose();
        case Deadline(message) => Fail(message);
      }
    }
  }

  /** One chunk on: what was told, what it tells, and what the rest will tell. */
  lemma NextChunk(parse: string -> Said, id: Option<string>, text: string, told: seq<Kind>,
                  now: Option<string>, buffer: string, chunks: seq<string>)
    requires chunks != [] && Fits(buffer, chunks)
    requires ToldOf(parse, id, text) == told + ToldOf(parse, now, buffer + Together(chunks))
    requires ReadOn(parse, id, text) == ReadOn(parse, now, buffer + Together(chunks))
    ensures |buffer + chunks[0]| <= MAX_BUFFER
    ensures var reached, more := ReadOn(parse, now, buffer + chunks[0]), Together(chunks[1..]);
            if reached.listens then
              && Fits(reached.rest, chunks[1..]) && Newline(reached.rest) == |reached.rest|
              && ToldOf(parse, id, text)
                 == told + ToldOf(parse, now, buffer + chunks[0]) + ToldOf(parse, reached.id, reached.rest + more)
              && ReadOn(parse, id, text) == ReadOn(parse, reached.id, reached.rest + more)
            else
              && reached == Reached(None, false, "") && ReadOn(parse, id, text) == reached
              && ToldOf(parse, id, text) == told + ToldOf(parse, now, buffer + chunks[0])
  {
    hide ToldOf, ReadOn, Newline, Tail;
    var more, kinds := Together(chunks[1..]), ToldOf(parse, now, buffer + chunks[0]);
    assert buffer + (chunks[0] + more) == buffer + chunks[0] + more;
    PiecesTell(parse, now, buffer + chunks[0], more);
    TailIsLeft(parse, now, buffer + chunks[0]);
    ListensOrEnds(parse, now, buffer + chunks[0]);
    var reached := ReadOn(parse, now, buffer + chunks[0]);
    Associates(told, kinds, if reached.listens then ToldOf(parse, reached.id, reached.rest + more) else []);
  }

  /** Text of the helper in any chunks is heard as if it came at once, while no chunk is too much. */
  method HearChunks(service: SpeechService, helper: nat, chunks: seq<string>)
    requires service.Valid() && service.child == Some(helper) && Fits(service.Buffer(helper), chunks)
    requires Newline(service.Buffer(helper)) == |service.Buffer(helper)|
    modifies service
    ensures service.Valid() && (service.run.Some? ==> SameRun(old(service.run), service.run))
    ensures var text := old(service.Buffer(helper)) + Together(chunks);
            && service.trace
               == old(service.trace) + Heard(old(service.run), ToldOf(service.parse, Id(old(service.run)), text))
            && service.Reaches(helper, ReadOn(service.parse, Id(old(service.run)), text))
  {
    hide SpeechService.Valid, ToldOf, ReadOn, Heard, Fits, Together, Newline;
    ghost var id, text := Id(service.run), service.Buffer(helper) + Together(chunks);
    ghost var told: seq<Kind> := [];
    NothingHeard(service.run);
    assert chunks[0..] == chunks;
    for i := 0 to |chunks|
      invariant service.Valid() && (service.run.Some? ==> SameRun(old(service.run), service.run))
      invariant service.trace == old(service.trace) + Heard(old(service.run), told)
      invariant if service.child == Some(helper) then
                  var left := service.Buffer(helper) + Together(chunks[i..]);
                  && Fits(service.Buffer(helper), chunks[i..])
                  && Newline(service.Buffer(helper)) == |service.Buffer(helper)|
                  && ToldOf(service.parse, id, text) == told + ToldOf(service.parse, Id(service.run), left)
                  && ReadOn(service.parse, id, text) == ReadOn(service.parse, Id(service.run), left)
                else
                  && service.child == None && service.run == None && ToldOf(service.parse, id, text) == told
                  && ReadOn(service.parse, id, text) == Reached(None, false, "")
    {
      if service.child == Some(helper) {
        ghost var before, buffer := service.run, service.Buffer(helper) + chunks[i];
        ghost var kinds := ToldOf(service.parse, Id(before), buffer);
        assert chunks[i..][1..] == chunks[i + 1..];
        NextChunk(service.parse, id, text, told, Id(before), service.Buffer(helper), chunks[i..]);
        if before.None? {
          ToldNobody(service.parse, buffer);
        }
        HeardMore(old(service.run), before, told, kinds);
        told := told + kinds;
      }
      service.Data(helper, chunks[i]);
    }
    if service.child == Some(helper) {
      EndOfText(service, helper, chunks, told);
    }
  }

  /** Nothing is left behind the last chunk but a line that is not whole. */
  lemma EndOfText(service: SpeechService, helper: nat, chunks: seq<string>, told: seq<Kind>)
    requires Newline(service.Buffer(helper)) == |service.Buffer(helper)|
    ensures var left := service.Buffer(helper) + Together(chunks[|chunks|..]);
            && told + ToldOf(service.parse, Id(service.run), left) == told
            && ReadOn(service.parse, Id(service.run), left) == Reached(Id(service.run), true, service.Buffer(helper))
  {
    hide ToldOf, ReadOn, Newline;
    assert service.Buffer(helper) + "" == service.Buffer(helper);
    FirstTold(service.parse, Id(service.run), service.Buffer(helper));
  }

  lemma {:induction false} ListensOrEnds(parse: string -> Said, id: Option<string>, buffer: string)
    ensures var reached := ReadOn(parse, id, buffer);
            !reached.listens ==> reached == Reached(None, false, "")
    decreases |buffer|
  {
    hide ToldOf, ReadOn, Newline, Refuses, Fails, RunAfter;
    FirstTold(parse, id, buffer);
    var newline := Newline(buffer);
    if newline < |buffer| {
      ListensOrEnds(parse, RunAfter(id, parse(buffer[..newline])), buffer[newline + 1..]);
    }
  }

  /** Whole lines that end nothing, in any chunks, are heard each once, in order, by the page of the run. */
  method HearLines(service: SpeechService, helper: nat, chunks: seq<string>, lines: seq<string>)
    requires service.Valid() && service.child == Some(helper) && service.run.Some? && service.Buffer(helper) == ""
    requires Fits("", chunks) && Together(chunks) == Text(lines)
    requires forall i :: 0 <= i < |lines| ==> Passes(service.parse, service.run.value.id, lines[i])
    modifies service
    ensures service.Valid() && SameRun(old(service.run), service.run) && service.child == Some(helper)
    ensures service.Buffer(helper) == ""
    ensures var run, kinds := old(service.run).value, Own(service.parse, old(service.run).value.id, lines);
            && |service.trace| == |old(service.trace)| + |kinds| && old(service.trace) <= service.trace
            && forall i :: 0 <= i < |kinds| ==>
                 service.trace[|old(service.trace)| + i] == Emission(run.number, run.id, run.owner, kinds[i])
  {
    hide SpeechService.Valid, ToldOf, ReadOn;
    LinesAreTold(service.parse, service.run.value.id, lines);
    assert "" + Together(chunks) == Text(lines);
    HearChunks(service, helper, chunks);
  }

  /** In every state of the service the pages heard whole runs, one after the other, each page its own. */
  lemma PagesHearWholeRuns(service: SpeechService)
    requires service.Valid()
    ensures WellTold(service.trace, At(if service.run.Some? then |service.starts| - 1 else |service.starts|, false))
    ensures forall e :: e in service.trace ==> e.run < |service.starts| && service.starts[e.run] == (e.id, e.owner)
  {
    TracesAreWellTold(service.trace);
  }

  /**
   The live timers are the deadline of the run or the idle timer, never both, and no helper but the
   current one is left alive.
   */
  lemma TimersOfTheService(service: SpeechService)
    requires service.Valid()
    ensures |service.timers| <= 1
    ensures service.timers.Keys == if service.run.Some? then {service.run.value.deadline}
                                   else if service.idle.Some? then {service.idle.value} else {}
    ensures forall helper: nat :: helper < service.spawned && helper !in service.killed ==>
              service.child == Some(helper)
  {
    var timers := service.timers;
    assert |timers| == |timers.Keys|;
  }

  function Id(run: Option<Run>): Option<string> {
    if run.Some? then Some(run.value.id) else None
  }

  predicate SameRun(one: Option<Run>, other: Option<Run>) {
    one.Some? && other.Some? && one.value.number == other.value.number && one.value.id == other.value.id
    && one.value.owner == other.value.owner
  }

  /** What the page hears of the lines that are whole once `text` came. */
  function ToldOfData(parse: string -> Said, id: Option<string>, buffer: string, text: string): seq<Kind> {
    if |buffer + text| > MAX_BUFFER then
      if id.Some? then [Failed("Speech helper sent an oversized message"), Ended] else []
    else ToldOf(parse, id, buffer + text)
  }

  lemma FirstLine(parse: string -> Said, id: Option<string>, buffer: string, told: seq<Kind>)
    requires Newline(buffer) < |buffer|
    ensures var message := parse(buffer[..Newline(buffer)]);
            told + ToldOf(parse, id, buffer) ==
              if Refuses(id, message) then told + Told(id, message)
              else told + Told(id, message) + ToldOf(parse, RunAfter(id, message), buffer[Newline(buffer) + 1..])
  {
    hide ToldOf, ReadOn, Newline, Told, Refuses, Fails;
    FirstTold(parse, id, buffer);
    var message, rest := parse(buffer[..Newline(buffer)]), buffer[Newline(buffer) + 1..];
    if !Refuses(id, message) {
      Associates(told, Told(id, message), ToldOf(parse, RunAfter(id, message), rest));
    }
  }

  lemma NothingHeard(run: Option<Run>)
    ensures Heard(run, []) == []
  {
  }

  /** A refused message fails the run, if there is one. */
  lemma RefusedTells(run: Option<Run>, message: Said)
    requires Refuses(Id(run), message)
    ensures Heard(run, Told(Id(run), message)) == Heard(run, [INVALID, Ended])
  {
  }

  /** What the same run, or what is left of it, hears next. */
  lemma HeardMore(run: Option<Run>, now: Option<Run>, kinds: seq<Kind>, more: seq<Kind>)
    requires now.Some? ==> SameRun(run, now)
    requires now.None? ==> run.None? || more == []
    ensures Heard(run, kinds + more) == Heard(run, kinds) + Heard(now, more)
  {
  }
}
