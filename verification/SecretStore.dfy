/**
 The secrets of the desktop app: one queue of work for each path, shared by all stores on it.
 Work is chained to whatever the path's entry holds, and the entry goes when its work settled and
 nothing newer was queued. Work on different paths interleaves.
 */
module SecretStore {
  import opened Options

  type Bytes = seq<int>

  /** What the operating system offers; a text it cannot decrypt gives none. */
  datatype Cipher = Cipher(encrypt: string -> Bytes, decrypt: Bytes -> Option<string>)

  ghost predicate Undoes(cipher: Cipher) {
    forall secret :: cipher.decrypt(cipher.encrypt(secret)) == Some(secret)
  }

  /** One store on a path. */
  datatype Store = Store(path: string, number: nat, reportUnreadable: bool)

  datatype Work = Read | Write(secret: Option<string>)

  datatype Answer = Secret(value: Option<string>) | Unreadable | Stored | NotStored

  /** Work runs with the cipher available or not, and when it ended it answered. */
  datatype Phase = Waiting | Running(available: bool) | Settled(available: bool, outcome: Outcome, answer: Answer)

  datatype Job = Job(store: Store, work: Work, previous: Option<nat>, phase: Phase)

  /** The entry of a path is the number of its newest work. */
  datatype State = State(jobs: seq<Job>, chains: map<string, nat>, memory: map<Store, Option<string>>,
                         disk: map<string, Bytes>)

  /** How the disk behaves while work runs: whether the change reached it, and whether the work ends in an error. */
  datatype Outcome = Outcome(reached: bool, fails: bool)

  datatype Event =
    | Call(store: Store, work: Work)
    | Start(job: nat, available: bool)
    | Settle(job: nat, outcome: Outcome)
    | Clear(job: nat)

  function InOrder(s: State, store: Store, work: Work): State {
    var previous := if store.path in s.chains then Some(s.chains[store.path]) else None;
    s.(jobs := s.jobs + [Job(store, work, previous, Waiting)], chains := s.chains[store.path := |s.jobs|])
  }

  /** Work starts once the work it is chained to settled. */
  predicate Free(s: State, job: nat) {
    && job < |s.jobs| && s.jobs[job].phase.Waiting?
    && (s.jobs[job].previous.Some? ==>
          s.jobs[job].previous.value < |s.jobs| && s.jobs[s.jobs[job].previous.value].phase.Settled?)
  }

  function Started(s: State, job: nat, available: bool): State
    requires job < |s.jobs|
  {
    var j := s.jobs[job];
    s.(jobs := s.jobs[job := j.(phase := Running(available))],
       memory := if j.work.Write? then s.memory[j.store := j.work.secret] else s.memory)
  }

  function ReadAnswer(cipher: Cipher, store: Store, held: Option<Bytes>, fails: bool): Answer {
    if held.None? then Secret(None)
    else
      var read := if fails then None else cipher.decrypt(held.value);
      if read.Some? then Secret(read) else if store.reportUnreadable then Unreadable else Secret(None)
  }

  function Held(disk: map<string, Bytes>, path: string): Option<Bytes> {
    if path in disk then Some(disk[path]) else None
  }

  function Remembered(s: State, store: Store): Option<string> {
    if store in s.memory then s.memory[store] else None
  }

  function AnswerOf(cipher: Cipher, s: State, job: nat, available: bool, outcome: Outcome): Answer
    requires job < |s.jobs|
  {
    var j := s.jobs[job];
    match j.work
    case Read =>
      if available then ReadAnswer(cipher, j.store, Held(s.disk, j.store.path), outcome.fails)
      else Secret(Remembered(s, j.store))
    case Write(_) =>
      if available && outcome.fails then NotStored else Stored
  }

  /** A write that reached the disk replaced the file, or removed it. */
  function DiskAfter(cipher: Cipher, disk: map<string, Bytes>, path: string, secret: Option<string>)
    : map<string, Bytes>
  {
    match secret
    case None => disk - {path}
    case Some(text) => disk[path := cipher.encrypt(text)]
  }

  predicate Reaches(job: Job, available: bool, outcome: Outcome) {
    job.work.Write? && available && outcome.reached
  }

  function Done(cipher: Cipher, s: State, job: nat, outcome: Outcome): State
    requires job < |s.jobs| && s.jobs[job].phase.Running?
  {
    var j := s.jobs[job];
    var available := j.phase.available;
    var phase := Settled(available, outcome, AnswerOf(cipher, s, job, available, outcome));
    s.(jobs := s.jobs[job := j.(phase := phase)],
       disk := if Reaches(j, available, outcome) then DiskAfter(cipher, s.disk, j.store.path, j.work.secret)
               else s.disk)
  }

  function Cleared(s: State, job: nat): State
    requires job < |s.jobs|
  {
    var path := s.jobs[job].store.path;
    if path in s.chains && s.chains[path] == job then s.(chains := s.chains - {path}) else s
  }

  predicate Enabled(s: State, e: Event) {
    match e
    case Call(_, _) => true
    case Start(job, _) => Free(s, job)
    case Settle(job, outcome) =>
      job < |s.jobs| && s.jobs[job].phase.Running? && (!outcome.fails && s.jobs[job].work.Write? ==> outcome.reached)
    case Clear(job) => job < |s.jobs| && s.jobs[job].phase.Settled?
  }

  function Next(cipher: Cipher, s: State, e: Event): State
    requires Enabled(s, e)
  {
    match e
    case Call(store, work) => InOrder(s, store, work)
    case Start(job, available) => Started(s, job, available)
    case Settle(job, outcome) => Done(cipher, s, job, outcome)
    case Clear(job) => Cleared(s, job)
  }

  function Beginning(disk: map<string, Bytes>): State {
    State([], map[], map[], disk)
  }

  /** `states` are the states of a run of `events`. */
  ghost predicate Runs(cipher: Cipher, disk: map<string, Bytes>, states: seq<State>, events: seq<Event>) {
    && |states| == |events| + 1
    && states[0] == Beginning(disk)
    && forall i :: 0 <= i < |events| ==> Follows(cipher, states, events, i)
  }

  ghost predicate Follows(cipher: Cipher, states: seq<State>, events: seq<Event>, i: nat)
    requires |states| == |events| + 1 && i < |events|
  {
    Enabled(states[i], events[i]) && states[i + 1] == Next(cipher, states[i], events[i])
  }

  // ---------------------------------------------------------------------------------------------
  // One at a time, in the order of the calls

  predicate OnPath(s: State, job: nat, path: string) {
    job < |s.jobs| && s.jobs[job].store.path == path
  }

  ghost predicate AllSettled(s: State, path: string, from: nat, to: nat) {
    forall job: nat :: from <= job < to && OnPath(s, job, path) ==> s.jobs[job].phase.Settled?
  }

  ghost predicate NoneOnPath(s: State, path: string, from: nat, to: nat) {
    forall job: nat :: from <= job < to ==> !OnPath(s, job, path)
  }

  /** The entry of a path is its newest work; without one all its work settled. */
  ghost predicate EntryIsNewest(s: State, path: string) {
    if path in s.chains then
      OnPath(s, s.chains[path], path) && NoneOnPath(s, path, s.chains[path] + 1, |s.jobs|)
    else AllSettled(s, path, 0, |s.jobs|)
  }

  /** Work is chained to the work before it on its path; without a chain all of that settled. */
  ghost predicate Chained(s: State, job: nat)
    requires job < |s.jobs|
  {
    var path := s.jobs[job].store.path;
    match s.jobs[job].previous
    case None => AllSettled(s, path, 0, job)
    case Some(previous) => previous < job && OnPath(s, previous, path) && NoneOnPath(s, path, previous + 1, job)
  }

  ghost predicate InTurn(s: State, job: nat)
    requires job < |s.jobs|
  {
    !s.jobs[job].phase.Waiting? ==> AllSettled(s, s.jobs[job].store.path, 0, job)
  }

  ghost predicate Queued(s: State) {
    && (forall path :: EntryIsNewest(s, path))
    && forall job: nat :: job < |s.jobs| ==> Chained(s, job) && InTurn(s, job)
  }

  /** Work is only added, keeps what it is, and stays settled. */
  ghost predicate Grows(s: State, t: State) {
    && |s.jobs| <= |t.jobs|
    && forall job :: 0 <= job < |s.jobs| ==> GoesOn(s.jobs[job], t.jobs[job])
  }

  ghost predicate GoesOn(one: Job, other: Job) {
    && other.store == one.store && other.work == one.work && other.previous == one.previous
    && (one.phase.Settled? ==> other == one)
    && (!one.phase.Waiting? ==> !other.phase.Waiting?)
  }

  lemma StillSettled(s: State, t: State, path: string, from: nat, to: nat)
    requires Grows(s, t) && to <= |s.jobs| && AllSettled(s, path, from, to)
    ensures AllSettled(t, path, from, to)
  {
    forall job: nat | from <= job < to && OnPath(t, job, path) ensures t.jobs[job].phase.Settled? {
      assert GoesOn(s.jobs[job], t.jobs[job]) && OnPath(s, job, path);
    }
  }

  lemma StillNone(s: State, t: State, path: string, from: nat, to: nat)
    requires Grows(s, t) && to <= |s.jobs| && NoneOnPath(s, path, from, to)
    ensures NoneOnPath(t, path, from, to)
  {
    forall job: nat | from <= job < to ensures !OnPath(t, job, path) {
      assert job < |s.jobs| ==> GoesOn(s.jobs[job], t.jobs[job]) && !OnPath(s, job, path);
    }
  }

  lemma StillChained(s: State, t: State, job: nat)
    requires Grows(s, t) && job < |s.jobs| && Chained(s, job)
    ensures Chained(t, job)
  {
    assert GoesOn(s.jobs[job], t.jobs[job]);
    var path := s.jobs[job].store.path;
    match s.jobs[job].previous
    case None => StillSettled(s, t, path, 0, job);
    case Some(previous) =>
      StillNone(s, t, path, previous + 1, job);
      assert GoesOn(s.jobs[previous], t.jobs[previous]);
  }

  lemma StillInTurn(s: State, t: State, job: nat)
    requires Grows(s, t) && job < |s.jobs| && InTurn(s, job)
               && (t.jobs[job].phase.Waiting? <==> s.jobs[job].phase.Waiting?)
    ensures InTurn(t, job)
  {
    assert GoesOn(s.jobs[job], t.jobs[job]);
    if !s.jobs[job].phase.Waiting? {
      StillSettled(s, t, s.jobs[job].store.path, 0, job);
    }
  }

  lemma StillNewest(s: State, t: State, path: string)
    requires Grows(s, t) && |t.jobs| == |s.jobs| && EntryIsNewest(s, path)
    requires path in t.chains <==> path in s.chains
    requires path in s.chains ==> t.chains[path] == s.chains[path]
    ensures EntryIsNewest(t, path)
  {
    if path in s.chains {
      StillNone(s, t, path, s.chains[path] + 1, |s.jobs|);
      assert GoesOn(s.jobs[s.chains[path]], t.jobs[s.chains[path]]);
    } else {
      StillSettled(s, t, path, 0, |s.jobs|);
    }
  }

  lemma CallKeeps(s: State, store: Store, work: Work)
    requires Queued(s)
    ensures Queued(InOrder(s, store, work))
  {
    hide AllSettled, NoneOnPath;
    var t := InOrder(s, store, work);
    var n := |s.jobs|;
    assert EntryIsNewest(s, store.path);
    forall job: nat | job < n ensures Chained(t, job) && InTurn(t, job) {
      assert Chained(s, job) && InTurn(s, job);
      StillChained(s, t, job);
      StillInTurn(s, t, job);
    }
    if store.path in s.chains {
      StillNone(s, t, store.path, s.chains[store.path] + 1, n);
    } else {
      StillSettled(s, t, store.path, 0, n);
    }
    forall path ensures EntryIsNewest(t, path) {
      assert EntryIsNewest(s, path);
      NewOneOnPath(s, t, path);
    }
  }

  lemma NewOneOnPath(s: State, t: State, path: string)
    requires Grows(s, t) && |t.jobs| == |s.jobs| + 1 && EntryIsNewest(s, path)
    requires t.chains == s.chains[t.jobs[|s.jobs|].store.path := |s.jobs|]
    ensures EntryIsNewest(t, path)
  {
    var n := |s.jobs|;
    if path != t.jobs[n].store.path {
      if path in s.chains {
        StillNone(s, t, path, s.chains[path] + 1, n);
        assert GoesOn(s.jobs[s.chains[path]], t.jobs[s.chains[path]]);
      } else {
        StillSettled(s, t, path, 0, n);
      }
    }
  }

  /** Work whose turn it is comes after all earlier work on its path. */
  lemma FreeIsInTurn(s: State, job: nat)
    requires Queued(s) && Free(s, job)
    ensures AllSettled(s, s.jobs[job].store.path, 0, job)
  {
    assert Chained(s, job);
    if s.jobs[job].previous.Some? {
      var previous := s.jobs[job].previous.value;
      assert InTurn(s, previous);
      assert forall k: nat :: previous < k < job ==> !OnPath(s, k, s.jobs[job].store.path);
    }
  }

  /** One work changes its phase. */
  lemma PhaseKeeps(s: State, t: State, job: nat)
    requires Queued(s) && job < |s.jobs| && Grows(s, t) && |t.jobs| == |s.jobs| && t.chains == s.chains
    requires forall k :: 0 <= k < |s.jobs| && k != job ==> t.jobs[k] == s.jobs[k]
    requires InTurn(t, job)
    ensures Queued(t)
  {
    hide AllSettled, NoneOnPath, InTurn, Chained, EntryIsNewest, GoesOn;
    forall k: nat | k < |t.jobs| ensures Chained(t, k) && InTurn(t, k) {
      assert Chained(s, k) && InTurn(s, k);
      StillChained(s, t, k);
      if k != job {
        StillInTurn(s, t, k);
      }
    }
    forall path ensures EntryIsNewest(t, path) {
      assert EntryIsNewest(s, path);
      StillNewest(s, t, path);
    }
  }

  lemma StartKeeps(s: State, job: nat, available: bool)
    requires Queued(s) && Free(s, job)
    ensures Queued(Started(s, job, available)) && Grows(s, Started(s, job, available))
  {
    var t := Started(s, job, available);
    FreeIsInTurn(s, job);
    StillSettled(s, t, s.jobs[job].store.path, 0, job);
    PhaseKeeps(s, t, job);
  }

  lemma DoneKeeps(cipher: Cipher, s: State, job: nat, outcome: Outcome)
    requires Queued(s) && job < |s.jobs| && s.jobs[job].phase.Running?
    ensures Queued(Done(cipher, s, job, outcome)) && Grows(s, Done(cipher, s, job, outcome))
  {
    hide AnswerOf, DiskAfter;
    var t := Done(cipher, s, job, outcome);
    assert InTurn(s, job);
    StillSettled(s, t, s.jobs[job].store.path, 0, job);
    PhaseKeeps(s, t, job);
  }

  /** When the newest work on a path settled, all of it did. */
  lemma NewestSettlesLast(s: State, path: string)
    requires Queued(s) && path in s.chains && s.chains[path] < |s.jobs| && s.jobs[s.chains[path]].phase.Settled?
    ensures AllSettled(s, path, 0, |s.jobs|)
  {
    var newest := s.chains[path];
    assert EntryIsNewest(s, path) && InTurn(s, newest);
    assert forall k: nat :: newest + 1 <= k < |s.jobs| ==> !OnPath(s, k, path);
  }

  lemma ClearKeeps(s: State, job: nat)
    requires Queued(s) && job < |s.jobs| && s.jobs[job].phase.Settled?
    ensures Queued(Cleared(s, job))
  {
    hide AllSettled, NoneOnPath, InTurn, Chained;
    var t := Cleared(s, job);
    forall path ensures EntryIsNewest(t, path) {
      assert EntryIsNewest(s, path);
      if path in s.chains && s.chains[path] == job && path == s.jobs[job].store.path {
        NewestSettlesLast(s, path);
        StillSettled(s, t, path, 0, |s.jobs|);
      } else {
        StillNewest(s, t, path);
      }
    }
    forall k: nat | k < |t.jobs| ensures Chained(t, k) && InTurn(t, k) {
      assert Chained(s, k) && InTurn(s, k);
      StillChained(s, t, k);
      StillInTurn(s, t, k);
    }
  }

  lemma NextKeeps(cipher: Cipher, s: State, e: Event)
    requires Queued(s) && Enabled(s, e)
    ensures Queued(Next(cipher, s, e)) && Grows(s, Next(cipher, s, e))
  {
    match e {
      case Call(store, work) =>
        hide Queued;
        CallKeeps(s, store, work);
      case Start(job, available) =>
        hide Queued;
        StartKeeps(s, job, available);
      case Settle(job, outcome) =>
        hide Queued, Done;
        DoneKeeps(cipher, s, job, outcome);
      case Clear(job) =>
        hide Queued;
        ClearKeeps(s, job);
    }
  }

  /** In every state of every run: work waits its turn, and a path's entry goes only when all its work settled. */
  lemma {:induction false} EveryRunQueues(cipher: Cipher, disk: map<string, Bytes>, states: seq<State>,
          events: seq<Event>, i: nat)
    requires Runs(cipher, disk, states, events) && i <= |events|
    ensures Queued(states[i])
  {
    if i > 0 {
      EveryRunQueues(cipher, disk, states, events, i - 1);
      assert Follows(cipher, states, events, i - 1);
      NextKeeps(cipher, states[i - 1], events[i - 1]);
    }
  }

  /** Of two works on a path the later one waits until the earlier one settled. */
  lemma OneAtATime(cipher: Cipher, disk: map<string, Bytes>, states: seq<State>, events: seq<Event>, i: nat, one: nat,
          other: nat)
    requires Runs(cipher, disk, states, events) && i <= |events| && one < other < |states[i].jobs|
    requires states[i].jobs[one].store.path == states[i].jobs[other].store.path
    ensures states[i].jobs[one].phase.Settled? || states[i].jobs[other].phase.Waiting?
    ensures !states[i].jobs[other].phase.Settled? ==> states[i].jobs[other].store.path in states[i].chains
  {
    var s := states[i];
    var path := s.jobs[other].store.path;
    EveryRunQueues(cipher, disk, states, events, i);
    assert InTurn(s, other) && OnPath(s, one, path) && OnPath(s, other, path) && EntryIsNewest(s, path);
  }

  // ---------------------------------------------------------------------------------------------
  // What a read answers

  /**
   What the file of a path holds after the first `n` works, as the writes among them that reached
   the disk leave it.
   */
  ghost function Content(cipher: Cipher, disk: map<string, Bytes>, jobs: seq<Job>, path: string, n: nat): Option<Bytes>
    requires n <= |jobs|
  {
    if n == 0 then Held(disk, path)
    else
      var last := jobs[n - 1];
      if last.store.path == path && ReachedDisk(last) then
        if last.work.secret.None? then None else Some(cipher.encrypt(last.work.secret.value))
      else Content(cipher, disk, jobs, path, n - 1)
  }

  predicate ReachedDisk(job: Job) {
    job.phase.Settled? && job.work.Write? && job.phase.available && job.phase.outcome.reached
  }

  /** The secret of the last write of this store among the first `n` works, of those that began. */
  ghost function LastWritten(jobs: seq<Job>, store: Store, n: nat): Option<string>
    requires n <= |jobs|
  {
    if n == 0 then None
    else
      var last := jobs[n - 1];
      if last.store == store && last.work.Write? && !last.phase.Waiting? then last.work.secret
      else LastWritten(jobs, store, n - 1)
  }

  /** A read answers from what the file or the memory holds, a write whether it failed. */
  ghost predicate Answered(cipher: Cipher, disk: map<string, Bytes>, jobs: seq<Job>, n: nat)
    requires n < |jobs|
  {
    var job := jobs[n];
    job.phase.Settled? ==>
      if job.work.Write? then
        job.phase.answer == if job.phase.available && job.phase.outcome.fails then NotStored else Stored
      else if !job.phase.available then job.phase.answer == Secret(LastWritten(jobs, job.store, n))
      else Reads(cipher, job, Content(cipher, disk, jobs, job.store.path, n))
  }

  /** A read of a file: no secret without one, and one that fails or does not decrypt is reported or taken for none. */
  ghost predicate Reads(cipher: Cipher, job: Job, held: Option<Bytes>)
    requires job.phase.Settled?
  {
    if held.Some? && !job.phase.outcome.fails && cipher.decrypt(held.value).Some? then
      job.phase.answer == Secret(cipher.decrypt(held.value))
    else job.phase.answer == if held.Some? && job.store.reportUnreadable then Unreadable else Secret(None)
  }

  ghost predicate Holds(cipher: Cipher, disk: map<string, Bytes>, s: State) {
    && (forall path :: Held(s.disk, path) == Content(cipher, disk, s.jobs, path, |s.jobs|))
    && (forall store :: Remembered(s, store) == LastWritten(s.jobs, store, |s.jobs|))
    && forall n: nat :: n < |s.jobs| ==> Answered(cipher, disk, s.jobs, n)
  }

  /** The content after `n` works depends on those of them on the path alone. */
  lemma {:induction false} SameContent(cipher: Cipher, disk: map<string, Bytes>, jobs: seq<Job>, others: seq<Job>,
          path: string, n: nat)
    requires n <= |jobs| && n <= |others|
    requires forall k :: 0 <= k < n ==> jobs[k].store.path == others[k].store.path
    requires forall k :: 0 <= k < n && jobs[k].store.path == path ==>
               ReachedDisk(jobs[k]) == ReachedDisk(others[k]) && jobs[k].work == others[k].work
    ensures Content(cipher, disk, jobs, path, n) == Content(cipher, disk, others, path, n)
  {
    if n > 0 {
      SameContent(cipher, disk, jobs, others, path, n - 1);
    }
  }

  lemma {:induction false} SameWritten(jobs: seq<Job>, others: seq<Job>, store: Store, n: nat)
    requires n <= |jobs| && n <= |others|
    requires forall k :: 0 <= k < n ==> jobs[k].store == others[k].store && jobs[k].work == others[k].work
    requires forall k :: 0 <= k < n && jobs[k].store == store ==> jobs[k].phase.Waiting? == others[k].phase.Waiting?
    ensures LastWritten(jobs, store, n) == LastWritten(others, store, n)
  {
    if n > 0 {
      SameWritten(jobs, others, store, n - 1);
    }
  }

  /** Work that did not reach the disk leaves the content. */
  lemma {:induction false} ContentSince(cipher: Cipher, disk: map<string, Bytes>, jobs: seq<Job>, path: string,
          n: nat, m: nat)
    requires n <= m <= |jobs| && forall k :: n <= k < m && jobs[k].store.path == path ==> !ReachedDisk(jobs[k])
    ensures Content(cipher, disk, jobs, path, m) == Content(cipher, disk, jobs, path, n)
  {
    if n < m {
      ContentSince(cipher, disk, jobs, path, n, m - 1);
    }
  }

  lemma {:induction false} WrittenSince(jobs: seq<Job>, store: Store, n: nat, m: nat)
    requires n <= m <= |jobs| && forall k :: n <= k < m && jobs[k].store.path == store.path ==> jobs[k].phase.Waiting?
    ensures LastWritten(jobs, store, m) == LastWritten(jobs, store, n)
  {
    if n < m {
      WrittenSince(jobs, store, n, m - 1);
    }
  }

  /** The answers given stay right when other work goes on. */
  lemma AnswersStay(cipher: Cipher, disk: map<string, Bytes>, s: State, t: State, n: nat)
    requires Grows(s, t) && n < |s.jobs| && InTurn(s, n) && t.jobs[n] == s.jobs[n] && Answered(cipher, disk, s.jobs, n)
    ensures Answered(cipher, disk, t.jobs, n)
  {
    var job := s.jobs[n];
    if job.phase.Settled? && job.work.Read? {
      forall k | 0 <= k < n ensures t.jobs[k].store == s.jobs[k].store && t.jobs[k].work == s.jobs[k].work
                                    && (s.jobs[k].store.path == job.store.path ==> t.jobs[k] == s.jobs[k]) {
        assert GoesOn(s.jobs[k], t.jobs[k]);
        assert s.jobs[k].store.path == job.store.path ==> OnPath(s, k, job.store.path);
      }
      SameContent(cipher, disk, s.jobs, t.jobs, job.store.path, n);
      SameWritten(s.jobs, t.jobs, job.store, n);
    }
  }

  lemma CallHolds(cipher: Cipher, disk: map<string, Bytes>, s: State, store: Store, work: Work)
    requires Queued(s) && Holds(cipher, disk, s)
    ensures Holds(cipher, disk, InOrder(s, store, work))
  {
    hide InTurn, Answered, GoesOn;
    var t := InOrder(s, store, work);
    var n := |s.jobs|;
    assert forall k :: 0 <= k < n ==> t.jobs[k] == s.jobs[k];
    forall path ensures Held(t.disk, path) == Content(cipher, disk, t.jobs, path, n + 1) {
      SameContent(cipher, disk, s.jobs, t.jobs, path, n);
    }
    forall other ensures Remembered(t, other) == LastWritten(t.jobs, other, n + 1) {
      SameWritten(s.jobs, t.jobs, other, n);
    }
    CallGrows(s, store, work);
    forall k: nat | k < n ensures Answered(cipher, disk, t.jobs, k) {
      assert Answered(cipher, disk, s.jobs, k) && InTurn(s, k);
      AnswersStay(cipher, disk, s, t, k);
    }
    NotYetAnswered(cipher, disk, t.jobs, n);
  }

  lemma CallGrows(s: State, store: Store, work: Work)
    ensures Grows(s, InOrder(s, store, work))
  {
  }

  lemma NotYetAnswered(cipher: Cipher, disk: map<string, Bytes>, jobs: seq<Job>, n: nat)
    requires n < |jobs| && !jobs[n].phase.Settled?
    ensures Answered(cipher, disk, jobs, n)
  {
  }

  /** While work runs, later work on its path waits. */
  lemma LaterWaits(s: State, job: nat, k: nat)
    requires Queued(s) && job < k < |s.jobs| && !s.jobs[job].phase.Settled?
               && s.jobs[k].store.path == s.jobs[job].store.path
    ensures s.jobs[k].phase.Waiting?
  {
    assert InTurn(s, k) && OnPath(s, job, s.jobs[k].store.path);
  }

  lemma StartHolds(cipher: Cipher, disk: map<string, Bytes>, s: State, job: nat, available: bool)
    requires Queued(s) && Holds(cipher, disk, s) && Free(s, job)
    ensures Holds(cipher, disk, Started(s, job, available))
  {
    hide InTurn, Answered;
    var t := Started(s, job, available);
    var n := |s.jobs|;
    StartKeeps(s, job, available);
    forall path ensures Held(t.disk, path) == Content(cipher, disk, t.jobs, path, n) {
      SameContent(cipher, disk, s.jobs, t.jobs, path, n);
    }
    forall store ensures Remembered(t, store) == LastWritten(t.jobs, store, n) {
      StartRemembers(s, job, available, store);
    }
    forall k: nat | k < n ensures Answered(cipher, disk, t.jobs, k) {
      assert Answered(cipher, disk, s.jobs, k) && InTurn(s, k);
      if k == job {
        NotYetAnswered(cipher, disk, t.jobs, k);
      } else {
        AnswersStay(cipher, disk, s, t, k);
      }
    }
  }

  lemma StartRemembers(s: State, job: nat, available: bool, store: Store)
    requires Queued(s) && Free(s, job) && Remembered(s, store) == LastWritten(s.jobs, store, |s.jobs|)
    ensures var t := Started(s, job, available);
            Remembered(t, store) == LastWritten(t.jobs, store, |t.jobs|)
  {
    var t := Started(s, job, available);
    var n := |s.jobs|;
    if store == s.jobs[job].store && s.jobs[job].work.Write? {
      forall k | job < k < n && t.jobs[k].store.path == store.path ensures t.jobs[k].phase.Waiting? {
        LaterWaits(s, job, k);
      }
      WrittenSince(t.jobs, store, job + 1, n);
    } else {
      SameExcept(s.jobs, t.jobs, store, job, n);
    }
  }

  /** Only writes of the store itself matter for what it remembers. */
  lemma {:induction false} SameExcept(jobs: seq<Job>, others: seq<Job>, store: Store, job: nat, n: nat)
    requires n <= |jobs| && |jobs| == |others| && job < |jobs|
    requires forall k :: 0 <= k < |jobs| && k != job ==> others[k] == jobs[k]
    requires others[job].store == jobs[job].store && others[job].work == jobs[job].work
    requires jobs[job].store == store ==> jobs[job].work.Read?
    ensures LastWritten(jobs, store, n) == LastWritten(others, store, n)
  {
    if n > 0 {
      SameExcept(jobs, others, store, job, n - 1);
    }
  }

  lemma DoneHolds(cipher: Cipher, disk: map<string, Bytes>, s: State, job: nat, outcome: Outcome)
    requires Queued(s) && Holds(cipher, disk, s) && job < |s.jobs| && s.jobs[job].phase.Running?
    ensures Holds(cipher, disk, Done(cipher, s, job, outcome))
  {
    DoneKeeps(cipher, s, job, outcome);
    DoneAnswers(cipher, disk, s, job, outcome);
    var t := Done(cipher, s, job, outcome);
    var n := |s.jobs|;
    hide InTurn, Answered, AnswerOf, DiskAfter, ReadAnswer;
    forall path ensures Held(t.disk, path) == Content(cipher, disk, t.jobs, path, n) {
      DoneReaches(cipher, disk, s, job, outcome, path);
    }
    forall store ensures Remembered(t, store) == LastWritten(t.jobs, store, n) {
      SameWritten(s.jobs, t.jobs, store, n);
    }
    forall k: nat | k < n ensures Answered(cipher, disk, t.jobs, k) {
      if k != job {
        assert Answered(cipher, disk, s.jobs, k) && InTurn(s, k);
        AnswersStay(cipher, disk, s, t, k);
      }
    }
  }

  lemma DoneReaches(cipher: Cipher, disk: map<string, Bytes>, s: State, job: nat, outcome: Outcome, path: string)
    requires Queued(s) && Holds(cipher, disk, s) && job < |s.jobs| && s.jobs[job].phase.Running?
    ensures var t := Done(cipher, s, job, outcome);
            Held(t.disk, path) == Content(cipher, disk, t.jobs, path, |s.jobs|)
  {
    hide AnswerOf, Queued;
    var t := Done(cipher, s, job, outcome);
    var n := |s.jobs|;
    assert Held(s.disk, path) == Content(cipher, disk, s.jobs, path, n);
    if path == s.jobs[job].store.path && ReachedDisk(t.jobs[job]) {
      forall k | job < k < n && t.jobs[k].store.path == path ensures !ReachedDisk(t.jobs[k]) {
        LaterWaits(s, job, k);
      }
      ContentSince(cipher, disk, t.jobs, path, job + 1, n);
    } else {
      SameContent(cipher, disk, s.jobs, t.jobs, path, n);
    }
  }

  lemma DoneAnswers(cipher: Cipher, disk: map<string, Bytes>, s: State, job: nat, outcome: Outcome)
    requires Queued(s) && Holds(cipher, disk, s) && job < |s.jobs| && s.jobs[job].phase.Running?
    ensures Answered(cipher, disk, Done(cipher, s, job, outcome).jobs, job)
  {
    var t := Done(cipher, s, job, outcome);
    var j := s.jobs[job];
    var n := |s.jobs|;
    if j.work.Read? {
      forall k | job < k < n && s.jobs[k].store.path == j.store.path ensures s.jobs[k].phase.Waiting? {
        LaterWaits(s, job, k);
      }
      hide Queued, ReadAnswer;
      assert Held(s.disk, j.store.path) == Content(cipher, disk, s.jobs, j.store.path, n);
      assert Remembered(s, j.store) == LastWritten(s.jobs, j.store, n);
      ContentSince(cipher, disk, s.jobs, j.store.path, job, n);
      WrittenSince(s.jobs, j.store, job + 1, n);
      SameContent(cipher, disk, s.jobs, t.jobs, j.store.path, job);
      SameWritten(s.jobs, t.jobs, j.store, job);
    }
  }

  lemma NextHolds(cipher: Cipher, disk: map<string, Bytes>, s: State, e: Event)
    requires Queued(s) && Holds(cipher, disk, s) && Enabled(s, e)
    ensures Holds(cipher, disk, Next(cipher, s, e))
  {
    match e {
      case Call(store, work) =>
        hide Queued, Holds;
        CallHolds(cipher, disk, s, store, work);
      case Start(job, available) =>
        hide Queued, Holds;
        StartHolds(cipher, disk, s, job, available);
      case Settle(job, outcome) =>
        hide Queued, Holds, Done;
        DoneHolds(cipher, disk, s, job, outcome);
      case Clear(job) =>
        hide Queued;
    }
  }

  lemma {:induction false} EveryRunHolds(cipher: Cipher, disk: map<string, Bytes>, states: seq<State>,
          events: seq<Event>, i: nat)
    requires Runs(cipher, disk, states, events) && i <= |events|
    ensures Holds(cipher, disk, states[i])
  {
    hide Queued, Enabled, Next;
    if i > 0 {
      EveryRunHolds(cipher, disk, states, events, i - 1);
      EveryRunQueues(cipher, disk, states, events, i - 1);
      assert Follows(cipher, states, events, i - 1);
      NextHolds(cipher, disk, states[i - 1], events[i - 1]);
    } else {
      NothingYet(cipher, disk);
    }
  }

  lemma NothingYet(cipher: Cipher, disk: map<string, Bytes>)
    ensures Holds(cipher, disk, Beginning(disk))
  {
  }

  /**
   A read through any store on the path answers with the secret of the last write called before it
   that reached the disk.
   */
  lemma ReadsTheLastWrite(cipher: Cipher, disk: map<string, Bytes>, states: seq<State>, events: seq<Event>, i: nat,
          read: nat, write: nat)
    requires Undoes(cipher) && Runs(cipher, disk, states, events) && i <= |events| && write < read < |states[i].jobs|
    requires var jobs := states[i].jobs;
             && jobs[write].store.path == jobs[read].store.path
             && ReachedDisk(jobs[write])
             && (forall k :: write < k < read && jobs[k].store.path == jobs[read].store.path ==> !ReachedDisk(jobs[k]))
             && jobs[read].work.Read? && jobs[read].phase.Settled? && jobs[read].phase.available
             && !jobs[read].phase.outcome.fails
    ensures states[i].jobs[read].phase.answer == Secret(states[i].jobs[write].work.secret)
  {
    var jobs := states[i].jobs;
    EveryRunHolds(cipher, disk, states, events, i);
    assert Answered(cipher, disk, jobs, read);
    ContentSince(cipher, disk, jobs, jobs[read].store.path, write + 1, read);
  }

  /** Without the cipher a read answers with the last secret written through its own store. */
  lemma ReadsItsOwnMemory(cipher: Cipher, disk: map<string, Bytes>, states: seq<State>, events: seq<Event>, i: nat,
          read: nat)
    requires Runs(cipher, disk, states, events) && i <= |events| && read < |states[i].jobs|
    requires var job := states[i].jobs[read];
             job.work.Read? && job.phase.Settled? && !job.phase.available
    ensures states[i].jobs[read].phase.answer == Secret(LastWritten(states[i].jobs, states[i].jobs[read].store, read))
  {
    EveryRunHolds(cipher, disk, states, events, i);
    assert Answered(cipher, disk, states[i].jobs, read);
  }

  // ---------------------------------------------------------------------------------------------
  // What a run does to the work

  function CallsOf(events: seq<Event>): seq<(Store, Work)> {
    if events == [] then []
    else
      var before := CallsOf(events[..|events| - 1]);
      var last := events[|events| - 1];
      if last.Call? then before + [(last.store, last.work)] else before
  }

  /** How far work went is what the run says of it. */
  ghost predicate WentAs(events: seq<Event>, n: nat, job: Job) {
    match job.phase
    case Waiting =>
      && (forall available :: Start(n, available) !in events)
      && (forall outcome :: Settle(n, outcome) !in events)
    case Running(available) => Start(n, available) in events && forall outcome :: Settle(n, outcome) !in events
    case Settled(available, outcome, _) => Start(n, available) in events && Settle(n, outcome) in events
  }

  /** The entry of a path stays until its newest work is cleared. */
  ghost predicate HasEntry(s: State, events: seq<Event>, path: string, newest: nat) {
    OnPath(s, newest, path) && NoneOnPath(s, path, newest + 1, |s.jobs|) ==>
      if Clear(newest) in events then path !in s.chains else path in s.chains && s.chains[path] == newest
  }

  /** The work in the queues is what was called, in that order. */
  ghost predicate AreCalls(jobs: seq<Job>, calls: seq<(Store, Work)>) {
    |jobs| == |calls| && forall n :: 0 <= n < |jobs| ==> (jobs[n].store, jobs[n].work) == calls[n]
  }

  lemma {:induction false} WorkIsAsCalled(cipher: Cipher, disk: map<string, Bytes>, states: seq<State>,
          events: seq<Event>, i: nat)
    requires Runs(cipher, disk, states, events) && i <= |events|
    ensures AreCalls(states[i].jobs, CallsOf(events[..i]))
  {
    hide DiskAfter, AnswerOf;
    if i > 0 {
      WorkIsAsCalled(cipher, disk, states, events, i - 1);
      assert Follows(cipher, states, events, i - 1);
      assert events[..i][..i - 1] == events[..i - 1];
    }
  }

  /** No event is about work before it was called. */
  lemma {:induction false} NothingBeforeTheCall(cipher: Cipher, disk: map<string, Bytes>, states: seq<State>,
          events: seq<Event>, i: nat, n: nat)
    requires Runs(cipher, disk, states, events) && i <= |events| && |states[i].jobs| <= n
    ensures forall available :: Start(n, available) !in events[..i]
    ensures forall outcome :: Settle(n, outcome) !in events[..i]
    ensures Clear(n) !in events[..i]
  {
    hide DiskAfter, AnswerOf;
    if i > 0 {
      assert Follows(cipher, states, events, i - 1);
      NothingBeforeTheCall(cipher, disk, states, events, i - 1, n);
      assert events[..i] == events[..i - 1] + [events[i - 1]];
    }
  }

  lemma {:induction false} WorkRanAsSaid(cipher: Cipher, disk: map<string, Bytes>, states: seq<State>,
          events: seq<Event>, i: nat, n: nat)
    requires Runs(cipher, disk, states, events) && i <= |events| && n < |states[i].jobs|
    ensures WentAs(events[..i], n, states[i].jobs[n])
  {
    hide DiskAfter, AnswerOf;
    if i > 0 {
      assert Follows(cipher, states, events, i - 1);
      assert events[..i] == events[..i - 1] + [events[i - 1]];
      if n < |states[i - 1].jobs| {
        WorkRanAsSaid(cipher, disk, states, events, i - 1, n);
      } else {
        NothingBeforeTheCall(cipher, disk, states, events, i - 1, n);
      }
    }
  }

  lemma {:induction false} EntriesAre(cipher: Cipher, disk: map<string, Bytes>, states: seq<State>,
          events: seq<Event>, i: nat, path: string, newest: nat)
    requires Runs(cipher, disk, states, events) && i <= |events|
    ensures HasEntry(states[i], events[..i], path, newest)
    ensures NoneOnPath(states[i], path, 0, |states[i].jobs|) ==> path !in states[i].chains
  {
    hide Queued, Enabled, Next;
    if i > 0 {
      assert Follows(cipher, states, events, i - 1);
      assert events[..i] == events[..i - 1] + [events[i - 1]];
      EntriesAre(cipher, disk, states, events, i - 1, path, newest);
      if |states[i - 1].jobs| <= newest {
        NothingBeforeTheCall(cipher, disk, states, events, i - 1, newest);
      }
      EntryGoesOn(cipher, states[i - 1], events[..i - 1], events[i - 1], path, newest);
    }
  }

  lemma EntryGoesOn(cipher: Cipher, s: State, before: seq<Event>, e: Event, path: string, newest: nat)
    requires Enabled(s, e) && HasEntry(s, before, path, newest) && (|s.jobs| <= newest ==> Clear(newest) !in before)
    requires NoneOnPath(s, path, 0, |s.jobs|) ==> path !in s.chains
    ensures var t := Next(cipher, s, e);
            && HasEntry(t, before + [e], path, newest)
            && (NoneOnPath(t, path, 0, |t.jobs|) ==> path !in t.chains)
  {
    hide DiskAfter, AnswerOf, NoneOnPath;
    var t := Next(cipher, s, e);
    if e.Call? {
      CalledIsNewest(s, t, path, newest);
    } else {
      SamePlaces(s, t, path, newest);
    }
  }

  lemma CalledIsNewest(s: State, t: State, path: string, newest: nat)
    requires |t.jobs| == |s.jobs| + 1 && forall n :: 0 <= n < |s.jobs| ==> t.jobs[n] == s.jobs[n]
    ensures if path == t.jobs[|s.jobs|].store.path then
              && !NoneOnPath(t, path, 0, |t.jobs|)
              && (OnPath(t, newest, path) && NoneOnPath(t, path, newest + 1, |t.jobs|) ==> newest == |s.jobs|)
            else
              && (OnPath(t, newest, path) ==> OnPath(s, newest, path))
              && (NoneOnPath(t, path, newest + 1, |t.jobs|) ==> NoneOnPath(s, path, newest + 1, |s.jobs|))
              && (NoneOnPath(t, path, 0, |t.jobs|) ==> NoneOnPath(s, path, 0, |s.jobs|))
  {
    if path == t.jobs[|s.jobs|].store.path {
      assert OnPath(t, |s.jobs|, path);
    }
    assert forall n: nat :: n < |s.jobs| ==> (OnPath(t, n, path) <==> OnPath(s, n, path));
  }

  lemma SamePlaces(s: State, t: State, path: string, newest: nat)
    requires |t.jobs| == |s.jobs| && forall n :: 0 <= n < |s.jobs| ==> t.jobs[n].store == s.jobs[n].store
    ensures OnPath(t, newest, path) <==> OnPath(s, newest, path)
    ensures NoneOnPath(t, path, newest + 1, |t.jobs|) <==> NoneOnPath(s, path, newest + 1, |s.jobs|)
    ensures NoneOnPath(t, path, 0, |t.jobs|) <==> NoneOnPath(s, path, 0, |s.jobs|)
  {
    assert forall n: nat :: OnPath(t, n, path) <==> OnPath(s, n, path);
  }

  // ---------------------------------------------------------------------------------------------
  // The queues themselves

  class Queues {
    const cipher: Cipher
    var chains: map<string, nat>
    var memory: map<Store, Option<string>>
    var disk: map<string, Bytes>
    // Every work ever queued; a promise of the source is its number here.
    var jobs: seq<Job>
    ghost var atFirst: map<string, Bytes>

    ghost function Model(): State
      reads this
    {
      State(jobs, chains, memory, disk)
    }

    ghost predicate Valid()
      reads this
    {
      Queued(Model()) && Holds(cipher, atFirst, Model())
    }

    constructor (cipher: Cipher, disk: map<string, Bytes>)
      ensures Valid() && Model() == Beginning(disk) && atFirst == disk && this.cipher == cipher
    {
      this.cipher := cipher;
      this.disk, this.atFirst := disk, disk;
      chains, memory, jobs := map[], map[], [];
      new;
      NothingYet(cipher, disk);
    }

    method InOrder(store: Store, work: Work) returns (job: nat)
      requires Valid()
      modifies this`jobs, this`chains
      ensures Valid() && Model() == Next(cipher, old(Model()), Call(store, work)) && job == |old(jobs)|
    {
      hide Queued, Holds;
      NextKeeps(cipher, Model(), Call(store, work));
      NextHolds(cipher, atFirst, Model(), Call(store, work));
      var previous := if store.path in chains then Some(chains[store.path]) else None;
      job := |jobs|;
      jobs := jobs + [Job(store, work, previous, Waiting)];
      chains := chains[store.path := job];
    }

    /** The work begins; a write takes the secret into memory first. */
    method Begin(job: nat, available: bool)
      requires Valid() && Free(Model(), job)
      modifies this`jobs, this`memory
      ensures Valid() && Model() == Next(cipher, old(Model()), Start(job, available))
    {
      hide Queued, Holds;
      NextKeeps(cipher, Model(), Start(job, available));
      NextHolds(cipher, atFirst, Model(), Start(job, available));
      var j := jobs[job];
      if j.work.Write? {
        memory := memory[j.store := j.work.secret];
      }
      jobs := jobs[job := j.(phase := Running(available))];
    }

    method Finish(job: nat, outcome: Outcome) returns (answer: Answer)
      requires Valid() && Enabled(Model(), Settle(job, outcome))
      modifies this`jobs, this`disk
      ensures Valid() && Model() == Next(cipher, old(Model()), Settle(job, outcome))
      ensures job < |jobs| && jobs[job].phase == Settled(old(jobs)[job].phase.available, outcome, answer)
    {
      hide Queued, Holds, ReadAnswer;
      NextKeeps(cipher, Model(), Settle(job, outcome));
      NextHolds(cipher, atFirst, Model(), Settle(job, outcome));
      var j := jobs[job];
      var available := j.phase.available;
      if j.work.Read? {
        if !available {
          answer := Secret(if j.store in memory then memory[j.store] else None);
        } else {
          var content := if j.store.path in disk then Some(disk[j.store.path]) else None;
          answer := ReadAnswer(cipher, j.store, content, outcome.fails);
        }
      } else {
        answer := if available && outcome.fails then NotStored else Stored;
        if available && outcome.reached {
          match j.work.secret {
            case None => disk := disk - {j.store.path};
            case Some(secret) => disk := disk[j.store.path := cipher.encrypt(secret)];
          }
        }
      }
      jobs := jobs[job := j.(phase := Settled(available, outcome, answer))];
    }

    /** After work settled its entry goes, unless newer work took it. */
    method Clear(job: nat)
      requires Valid() && Enabled(Model(), Event.Clear(job))
      modifies this`chains
      ensures Valid() && Model() == Next(cipher, old(Model()), Event.Clear(job))
    {
      hide Queued, Holds;
      NextKeeps(cipher, Model(), Event.Clear(job));
      NextHolds(cipher, atFirst, Model(), Event.Clear(job));
      var path := jobs[job].store.path;
      if path in chains && chains[path] == job {
        chains := chains - {path};
      }
    }
  }
}
