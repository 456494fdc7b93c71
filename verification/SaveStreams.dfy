/**
 Saves of a page: pieces written to a hidden file that takes its target's name when the page ends
 the save. Every call queues steps that run later, one after the other within a save and
 interleaved with the steps of other saves.

 Files are told apart from their names, since a save writes through the handle it opened and
 renames by name.
 */
module SaveStreams {

  type byte = b: int | 0 <= b < 256

  type Bytes = seq<byte>

  const SAVE_STREAM_PIECE_MAX: nat := 1024 * 1024

  /** The length of the text of a random UUID. */
  const ID_LENGTH: nat := 36

  datatype Path = Path(folder: string, name: string)

  function Partial(target: Path, id: string): Path {
    Path(target.folder, "." + target.name + "." + id + ".part")
  }

  /** Two saves never share a hidden name, and no save's hidden name is its target. */
  lemma PartialsDiffer(target: Path, id: string, other: Path, otherId: string)
    requires |id| == |otherId|
    ensures Partial(target, id) == Partial(other, otherId) ==> id == otherId
    ensures Partial(target, id) != target
  {
    var one, two := Partial(target, id).name, Partial(other, otherId).name;
    if one == two {
      assert one[|one| - 5 - |id|..|one| - 5] == id;
      assert two[|two| - 5 - |id|..|two| - 5] == otherId;
    }
  }

  /** What names there are, and what each file holds; files are numbered as they are made. */
  datatype Disk = Disk(names: map<Path, nat>, files: map<nat, Bytes>, next: nat)

  datatype Step = Write(bytes: Bytes) | Close | Rename | CloseQuietly | Remove

  datatype Fate = Unsettled | Renamed | Removed

  /** The pieces accepted so far, whether every write up to now wrote its whole piece, and how the save ended. */
  datatype Progress = Progress(accepted: Bytes, whole: bool, fate: Fate)

  /** `tail` holds the steps that still have to run. */
  datatype OpenSave = OpenSave(owner: nat, target: Path, file: nat, tail: seq<Step>, progress: Progress)

  /**
   The ids whose hidden file was made but that are not on record yet, those that answer, every save
   begun, and the names a save was renamed onto.
   */
  datatype State = State(opening: set<string>, open: set<string>, saves: map<string, OpenSave>,
                         disk: Disk, overwritten: set<Path>)

  /** How a step goes: a write may fall short, closing and renaming may fail. */
  datatype Outcome = Outcome(wrote: nat, succeeds: bool)

  datatype Event =
    | Begin(owner: nat, target: Path, id: string)
    | Register(id: string)
    | Piece(owner: nat, id: string, bytes: Bytes)
    | End(owner: nat, id: string)
    | Abort(owner: nat, id: string)
    | AbortOwner(owner: nat)
    | Advance(id: string, outcome: Outcome)

  predicate Owned(s: State, owner: nat, id: string) {
    id in s.open && id in s.saves && s.saves[id].owner == owner
  }

  function Queued(save: OpenSave, steps: seq<Step>): OpenSave {
    save.(tail := save.tail + steps)
  }

  /** The save no longer answers and has these last steps to run. */
  function Leave(s: State, id: string, steps: seq<Step>): State
    requires id in s.saves
  {
    s.(open := s.open - {id}, saves := s.saves[id := Queued(s.saves[id], steps)])
  }

  function Discarded(s: State, id: string): State
    requires id in s.saves
  {
    Leave(s, id, [CloseQuietly, Remove])
  }

  function Begun(s: State, owner: nat, target: Path, id: string): State {
    var partial := Partial(target, id);
    if partial in s.disk.names then s
    else
      var file := s.disk.next;
      State(s.opening + {id}, s.open, s.saves[id := OpenSave(owner, target, file, [], Progress([], true, Unsettled))],
            Disk(s.disk.names[partial := file], s.disk.files[file := []], file + 1), s.overwritten)
  }

  function Registered(s: State, id: string): State {
    if id !in s.opening then s else s.(opening := s.opening - {id}, open := s.open + {id})
  }

  function Written(s: State, owner: nat, id: string, bytes: Bytes): State {
    if !Owned(s, owner, id) then s
    else if |bytes| > SAVE_STREAM_PIECE_MAX then Discarded(s, id)
    else
      var save := Queued(s.saves[id], [Write(bytes)]);
      s.(saves := s.saves[id := save.(progress := save.progress.(accepted := save.progress.accepted + bytes))])
  }

  function AbortedOwner(s: State, owner: nat): State {
    var open := set id | id in s.open && !Owned(s, owner, id);
    var saves := map id | id in s.saves ::
        (if Owned(s, owner, id) then Queued(s.saves[id], [CloseQuietly, Remove]) else s.saves[id]);
    s.(open := open, saves := saves)
  }

  // ---------------------------------------------------------------------------------------------
  // Running one step

  function Appended(disk: Disk, file: nat, bytes: Bytes): Disk {
    disk.(files := disk.files[file := (if file in disk.files then disk.files[file] else []) + bytes])
  }

  function Settled(save: OpenSave, fate: Fate): OpenSave {
    save.(tail := [], progress := save.progress.(fate := fate))
  }

  /** The save goes on with these steps. */
  function GoesOn(s: State, id: string, tail: seq<Step>): State
    requires id in s.saves
  {
    s.(saves := s.saves[id := s.saves[id].(tail := tail)])
  }

  function RunWrite(s: State, id: string, wrote: Bytes, whole: bool): State
    requires id in s.saves && s.saves[id].tail != []
  {
    var save := s.saves[id];
    var progress := save.progress.(whole := save.progress.whole && whole);
    s.(saves := s.saves[id := save.(tail := save.tail[1..], progress := progress)],
        disk := Appended(s.disk, save.file, wrote))
  }

  function RunRename(s: State, id: string): State
    requires id in s.saves && Partial(s.saves[id].target, id) in s.disk.names
  {
    var save := s.saves[id];
    var partial := Partial(save.target, id);
    State(s.opening, s.open, s.saves[id := Settled(save, Renamed)],
          s.disk.(names := s.disk.names[save.target := s.disk.names[partial]] - {partial}),
          s.overwritten + {save.target})
  }

  function RunRemove(s: State, id: string): State
    requires id in s.saves
  {
    var save := s.saves[id];
    State(s.opening, s.open, s.saves[id := Settled(save, Removed)],
          s.disk.(names := s.disk.names - {Partial(save.target, id)}), s.overwritten)
  }

  /** What a write that may fall short puts down. */
  function WrittenPart(bytes: Bytes, outcome: Outcome): Bytes {
    bytes[..if outcome.wrote < |bytes| then outcome.wrote else |bytes|]
  }

  function Advanced(s: State, id: string, outcome: Outcome): State {
    if id !in s.saves || s.saves[id].tail == [] then s
    else
      var tail := s.saves[id].tail;
      match tail[0]
      case Write(bytes) =>
        var wrote := WrittenPart(bytes, outcome);
        RunWrite(s, id, wrote, wrote == bytes)
      case Close =>
        GoesOn(s, id, if outcome.succeeds then tail[1..] else [Remove])
      case Rename =>
        if outcome.succeeds && Partial(s.saves[id].target, id) in s.disk.names then RunRename(s, id)
        else GoesOn(s, id, [Remove])
      case CloseQuietly =>
        GoesOn(s, id, tail[1..])
      case Remove =>
        RunRemove(s, id)
  }

  function Next(s: State, e: Event): State {
    match e
    case Begin(owner, target, id) => Begun(s, owner, target, id)
    case Register(id) => Registered(s, id)
    case Piece(owner, id, bytes) => Written(s, owner, id, bytes)
    case End(owner, id) => if Owned(s, owner, id) then Leave(s, id, [Close, Rename]) else s
    case Abort(owner, id) => if Owned(s, owner, id) then Discarded(s, id) else s
    case AbortOwner(owner) => AbortedOwner(s, owner)
    case Advance(id, outcome) => Advanced(s, id, outcome)
  }

  /** A new save has a new random id. */
  predicate Possible(s: State, e: Event) {
    e.Begin? ==> |e.id| == ID_LENGTH && e.id !in s.saves
  }

  ghost predicate Fresh(s: State) {
    && s.opening == {} && s.open == {} && s.saves == map[] && s.overwritten == {}
    && (forall file :: file in s.disk.files ==> file < s.disk.next)
    && forall path :: path in s.disk.names ==> s.disk.names[path] in s.disk.files
  }

  function After(start: State, run: seq<Event>): State {
    if run == [] then start else Next(After(start, run[..|run| - 1]), run[|run| - 1])
  }

  ghost predicate Runs(start: State, run: seq<Event>) {
    Fresh(start) && forall i :: 0 <= i < |run| ==> Possible(After(start, run[..i]), run[i])
  }

  // ---------------------------------------------------------------------------------------------
  // What every step keeps

  function Pending(tail: seq<Step>): Bytes {
    if tail == [] then []
    else (if tail[0].Write? then tail[0].bytes else []) + Pending(tail[1..])
  }

  predicate OnlyWrites(tail: seq<Step>) {
    forall i :: 0 <= i < |tail| ==> tail[i].Write?
  }

  /** Pieces, and then the steps that settle the save. */
  ghost predicate Closing(tail: seq<Step>) {
    || tail == [Rename]
    || tail == [Remove]
    || exists n: nat :: ClosingAfter(tail, n)
  }

  ghost predicate ClosingAfter(tail: seq<Step>, n: nat) {
    n <= |tail| && OnlyWrites(tail[..n]) && (tail[n..] == [Close, Rename] || tail[n..] == [CloseQuietly, Remove])
  }

  ghost predicate Shaped(s: State, id: string)
    requires id in s.saves
  {
    var save := s.saves[id];
    && |id| == ID_LENGTH
    && (if id in s.open then OnlyWrites(save.tail) && save.progress.fate == Unsettled
        else if id in s.opening then save.tail == [] && save.progress.fate == Unsettled
        else if save.tail == [] then save.progress.fate != Unsettled
        else Closing(save.tail) && save.progress.fate == Unsettled)
  }

  /** What the file holds and what is still to be written make up the pieces accepted, unless a write fell short. */
  ghost predicate Holds(s: State, id: string)
    requires id in s.saves
  {
    var save := s.saves[id];
    && save.file in s.disk.files
    && var soFar := s.disk.files[save.file];
    if save.progress.fate == Removed then true
    else if save.progress.whole then soFar + Pending(save.tail) == save.progress.accepted
    else |soFar| + |Pending(save.tail)| < |save.progress.accepted|
  }

  /** The hidden name leads to the save's own file, unless another save took the name. */
  ghost predicate Hidden(s: State, id: string)
    requires id in s.saves
  {
    var save := s.saves[id];
    var partial := Partial(save.target, id);
    && save.file < s.disk.next
    && (save.progress.fate == Unsettled ==>
          && (partial !in s.overwritten <==> partial in s.disk.names && s.disk.names[partial] == save.file)
          && forall path :: path in s.disk.names && s.disk.names[path] == save.file ==> path == partial)
  }

  ghost predicate Settles(s: State, path: Path) {
    exists id :: id in s.saves && s.saves[id].progress.fate != Unsettled && Partial(s.saves[id].target, id) == path
  }

  /** Every name leads to a file, and a name a save was renamed onto is only gone when its own save settled. */
  ghost predicate Linked(s: State) {
    && (forall file :: file in s.disk.files ==> file < s.disk.next)
    && (forall path :: path in s.disk.names ==> s.disk.names[path] in s.disk.files)
    && forall path :: path in s.overwritten ==> path in s.disk.names || Settles(s, path)
  }

  ghost predicate Sound(s: State, id: string)
    requires id in s.saves
  {
    Shaped(s, id) && Holds(s, id) && Hidden(s, id)
  }

  ghost predicate Kept(s: State) {
    && s.open <= s.saves.Keys && s.opening <= s.saves.Keys && s.opening !! s.open
    && Linked(s)
    && (forall id, other :: id in s.saves && other in s.saves && id != other ==>
          s.saves[id].file != s.saves[other].file)
    && forall id :: id in s.saves ==> Sound(s, id)
  }

  /** Only the save `id` changes, and it keeps its file and target. */
  ghost predicate OnlyOne(s: State, t: State, id: string)
    requires id in s.saves
  {
    && t.saves.Keys == s.saves.Keys && t.opening == s.opening && (t.open == s.open || t.open == s.open - {id})
    && s.disk.next == t.disk.next
    && (forall other :: other in s.saves && other != id ==> t.saves[other] == s.saves[other])
    && t.saves[id].file == s.saves[id].file && t.saves[id].target == s.saves[id].target
    && s.saves[id].progress.fate == Unsettled
  }

  lemma OneChanges(s: State, t: State, id: string)
    requires Kept(s) && id in s.saves && OnlyOne(s, t, id) && Linked(t)
    requires forall other :: other in s.saves ==> Sound(t, other)
    ensures Kept(t)
  {
    hide Linked, Sound;
  }

  /** What a step may do to a save it is not for. */
  ghost predicate Untouched(s: State, t: State, id: string)
    requires id in s.saves && id in t.saves
  {
    && t.saves[id] == s.saves[id] && (id in t.open <==> id in s.open) && (id in t.opening <==> id in s.opening)
    && (s.saves[id].file in s.disk.files ==>
          s.saves[id].file in t.disk.files && t.disk.files[s.saves[id].file] == s.disk.files[s.saves[id].file])
  }

  lemma UntouchedStays(s: State, t: State, id: string)
    requires id in s.saves && id in t.saves && Untouched(s, t, id) && Shaped(s, id) && Holds(s, id)
    ensures Shaped(t, id) && Holds(t, id)
  {
  }

  lemma Regroups(one: Bytes, two: Bytes, three: Bytes)
    ensures one + two + three == one + (two + three)
  {
  }

  lemma {:induction false} PendingMore(tail: seq<Step>, more: seq<Step>)
    ensures Pending(tail + more) == Pending(tail) + Pending(more)
  {
    if tail == [] {
      assert tail + more == more;
    } else {
      PendingMore(tail[1..], more);
      assert (tail + more)[1..] == tail[1..] + more && (tail + more)[0] == tail[0];
      Regroups(if tail[0].Write? then tail[0].bytes else [], Pending(tail[1..]), Pending(more));
    }
  }

  /** A file has the same names before and after. */
  ghost predicate SameNames(s: State, t: State, file: nat) {
    forall path ::
      path in t.disk.names && t.disk.names[path] == file <==> path in s.disk.names && s.disk.names[path] == file
  }

  lemma HiddenStays(s: State, t: State, id: string)
    requires id in s.saves && id in t.saves && Hidden(s, id) && s.disk.next <= t.disk.next
    requires t.saves[id].target == s.saves[id].target && t.saves[id].file == s.saves[id].file
    requires t.saves[id].progress.fate == Unsettled ==> s.saves[id].progress.fate == Unsettled
    requires SameNames(s, t, s.saves[id].file)
    requires Partial(s.saves[id].target, id) in t.overwritten <==> Partial(s.saves[id].target, id) in s.overwritten
    ensures Hidden(t, id)
  {
    var file := s.saves[id].file;
    var partial := Partial(s.saves[id].target, id);
    assert partial in t.disk.names && t.disk.names[partial] == file
      <==> partial in s.disk.names && s.disk.names[partial] == file;
  }

  lemma BeginKeeps(s: State, owner: nat, target: Path, id: string)
    requires Kept(s) && Possible(s, Begin(owner, target, id))
    ensures Kept(Begun(s, owner, target, id))
  {
    if Partial(target, id) !in s.disk.names {
      var t := Begun(s, owner, target, id);
      BeginIsNew(s, owner, target, id);
      BeginLinks(s, owner, target, id);
      hide Linked, Sound, Partial;
      forall other | other in s.saves ensures Sound(t, other) && s.saves[other].file < s.disk.next {
        BeginKeepsOther(s, owner, target, id, other);
      }
    }
  }

  lemma BeginLinks(s: State, owner: nat, target: Path, id: string)
    requires Linked(s) && id !in s.saves && Partial(target, id) !in s.disk.names
    ensures Linked(Begun(s, owner, target, id))
  {
    SettlesStill(s, Begun(s, owner, target, id));
  }

  lemma BeginIsNew(s: State, owner: nat, target: Path, id: string)
    requires Kept(s) && Possible(s, Begin(owner, target, id)) && Partial(target, id) !in s.disk.names
    ensures var t := Begun(s, owner, target, id);
            Sound(t, id)
  {
    var partial := Partial(target, id);
    if partial in s.overwritten {
      var other :| other in s.saves && Partial(s.saves[other].target, other) == partial;
      assert Sound(s, other);
      PartialsDiffer(target, id, s.saves[other].target, other);
    }
  }

  lemma BeginKeepsOther(s: State, owner: nat, target: Path, id: string, other: string)
    requires Kept(s) && Possible(s, Begin(owner, target, id)) && Partial(target, id) !in s.disk.names
               && other in s.saves
    ensures Sound(Begun(s, owner, target, id), other) && s.saves[other].file < s.disk.next
  {
    var t := Begun(s, owner, target, id);
    assert Sound(s, other);
    UntouchedStays(s, t, other);
    HiddenStays(s, t, other);
  }

  lemma RegisterKeeps(s: State, id: string)
    requires Kept(s)
    ensures Kept(Registered(s, id))
  {
    var t := Registered(s, id);
    hide Holds, Hidden, Linked;
    assert Linked(t) by {
      RegisterLinks(s, id);
    }
    forall other | other in s.saves ensures Sound(t, other) {
      assert Sound(s, other);
      RegisterKeepsOne(s, id, other);
    }
  }

  lemma RegisterLinks(s: State, id: string)
    requires Linked(s)
    ensures Linked(Registered(s, id))
  {
    SettlesStill(s, Registered(s, id));
  }

  lemma RegisterKeepsOne(s: State, id: string, other: string)
    requires other in s.saves && Sound(s, other) && s.opening !! s.open
    ensures Sound(Registered(s, id), other)
  {
    hide Partial, Closing;
  }

  lemma SettlesStill(s: State, t: State)
    requires forall id :: id in s.saves && s.saves[id].progress.fate != Unsettled ==>
               id in t.saves && t.saves[id] == s.saves[id]
    ensures forall path :: Settles(s, path) ==> Settles(t, path)
  {
    forall path | Settles(s, path) ensures Settles(t, path) {
      var id :| id in s.saves && s.saves[id].progress.fate != Unsettled && Partial(s.saves[id].target, id) == path;
      assert t.saves[id] == s.saves[id];
    }
  }

  lemma LinkedStill(s: State, t: State, id: string)
    requires Linked(s) && id in s.saves && OnlyOne(s, t, id) && t.disk == s.disk && t.overwritten == s.overwritten
    ensures Linked(t)
  {
    SettlesStill(s, t);
  }

  /** A save whose steps change, and nothing on disk. */
  lemma QueueKeeps(s: State, t: State, id: string)
    requires Kept(s) && id in s.saves && OnlyOne(s, t, id) && t.disk == s.disk && t.overwritten == s.overwritten
    requires Shaped(t, id) && Holds(t, id)
    ensures Kept(t)
  {
    hide Shaped, Holds, Hidden, Linked;
    LinkedStill(s, t, id);
    forall other | other in s.saves ensures Sound(t, other) {
      assert Sound(s, other);
      HiddenStays(s, t, other);
      if other != id {
        UntouchedStays(s, t, other);
      }
    }
    OneChanges(s, t, id);
  }

  lemma OpenIsUnsettled(s: State, id: string)
    requires id in s.saves && Shaped(s, id) && id in s.open
    ensures s.saves[id].progress.fate == Unsettled && OnlyWrites(s.saves[id].tail)
  {
  }

  lemma LeaveKeeps(s: State, id: string, steps: seq<Step>)
    requires Kept(s) && id in s.open && (steps == [Close, Rename] || steps == [CloseQuietly, Remove])
    ensures Kept(Leave(s, id, steps))
  {
    var t := Leave(s, id, steps);
    var tail := s.saves[id].tail;
    assert Sound(s, id);
    PendingMore(tail, steps);
    NothingPending(steps);
    assert ClosingAfter(tail + steps, |tail|);
    assert t.saves[id].tail != [];
    QueueKeeps(s, t, id);
  }

  lemma NothingPending(steps: seq<Step>)
    requires steps == [Close, Rename] || steps == [CloseQuietly, Remove]
    ensures Pending(steps) == []
  {
    assert steps[1..] == [steps[1]] && steps[1..][1..] == [];
    assert Pending(steps[1..]) == Pending(steps[1..][1..]);
  }

  lemma PieceKeeps(s: State, owner: nat, id: string, bytes: Bytes)
    requires Kept(s) && Owned(s, owner, id)
    ensures Kept(Written(s, owner, id, bytes))
  {
    if |bytes| > SAVE_STREAM_PIECE_MAX {
      LeaveKeeps(s, id, [CloseQuietly, Remove]);
    } else {
      var t := Written(s, owner, id, bytes);
      assert Sound(s, id);
      PendingMore(s.saves[id].tail, [Write(bytes)]);
      assert [Write(bytes)][1..] == [];
      QueueKeeps(s, t, id);
    }
  }

  lemma AbortOwnerKeeps(s: State, owner: nat)
    requires Kept(s)
    ensures Kept(AbortedOwner(s, owner))
  {
    hide Sound, Linked;
    var t := AbortedOwner(s, owner);
    forall id | id in s.saves ensures t.saves[id].file == s.saves[id].file && Sound(t, id) {
      AbortOwnerKeepsOne(s, owner, id);
    }
    AbortOwnerLinks(s, owner);
  }

  lemma AbortOwnerLinks(s: State, owner: nat)
    requires Kept(s)
    ensures Linked(AbortedOwner(s, owner))
  {
    hide Shaped, Holds, Hidden;
    var t := AbortedOwner(s, owner);
    forall id | id in s.saves && s.saves[id].progress.fate != Unsettled ensures t.saves[id] == s.saves[id] {
      if Owned(s, owner, id) {
        assert Sound(s, id);
        OpenIsUnsettled(s, id);
      }
    }
    SettlesStill(s, t);
  }

  lemma AbortOwnerKeepsOne(s: State, owner: nat, id: string)
    requires Kept(s) && id in s.saves
    ensures var t := AbortedOwner(s, owner);
            t.saves[id].file == s.saves[id].file && Sound(t, id)
  {
    var t := AbortedOwner(s, owner);
    var tail := s.saves[id].tail;
    assert Sound(s, id);
    HiddenStays(s, t, id);
    if Owned(s, owner, id) {
      PendingMore(tail, [CloseQuietly, Remove]);
      NothingPending([CloseQuietly, Remove]);
      assert ClosingAfter(t.saves[id].tail, |tail|);
    } else {
      UntouchedStays(s, t, id);
    }
  }

  // ---------------------------------------------------------------------------------------------
  // Running a step keeps it

  /** The steps left after the first one. */
  lemma TailShape(s: State, id: string)
    requires id in s.saves && Shaped(s, id) && s.saves[id].tail != []
    ensures var tail := s.saves[id].tail;
            match tail[0]
            case Write(_) => if id in s.open then OnlyWrites(tail[1..]) else Closing(tail[1..])
            case Close => id !in s.open && tail == [Close, Rename]
            case CloseQuietly => id !in s.open && tail == [CloseQuietly, Remove]
            case _ => id !in s.open && tail == [tail[0]]
    ensures s.saves[id].progress.fate == Unsettled && (id !in s.open ==> id !in s.opening)
  {
    var tail := s.saves[id].tail;
    if id !in s.open && tail != [Rename] && tail != [Remove] {
      var n: nat :| ClosingAfter(tail, n);
      if n > 0 {
        assert tail[..n][0] == tail[0];
        assert tail[1..][..n - 1] == tail[..n][1..] && tail[1..][n - 1..] == tail[n..];
        assert ClosingAfter(tail[1..], n - 1);
      } else {
        assert tail[0..] == tail;
      }
    }
  }

  lemma NoPiecesLeft(tail: seq<Step>)
    requires tail == [] || tail == [Rename] || tail == [Remove] || tail == [Close, Rename]
               || tail == [CloseQuietly, Remove]
    ensures Pending(tail) == []
  {
    if |tail| == 2 {
      NothingPending(tail);
    } else if |tail| == 1 {
      assert tail[1..] == [];
    }
  }

  lemma GoingOnKeeps(s: State, id: string, tail: seq<Step>)
    requires Kept(s) && id in s.saves && s.saves[id].tail != [] && id !in s.open
    requires Pending(s.saves[id].tail) == [] && (tail == [Rename] || tail == [Remove])
    ensures Kept(GoesOn(s, id, tail))
  {
    assert Sound(s, id);
    NoPiecesLeft(tail);
    QueueKeeps(s, GoesOn(s, id, tail), id);
  }

  lemma WriteKeeps(s: State, id: string, bytes: Bytes, wrote: Bytes)
    requires Kept(s) && id in s.saves && s.saves[id].tail != [] && s.saves[id].tail[0] == Write(bytes) && wrote <= bytes
    ensures Kept(RunWrite(s, id, wrote, wrote == bytes))
  {
    var t := RunWrite(s, id, wrote, wrote == bytes);
    UnsettledStays(s, id);
    WriteKeepsItself(s, id, bytes, wrote);
    WriteLinks(s, id, wrote, wrote == bytes);
    hide Sound, Linked;
    forall other | other in s.saves && other != id ensures Sound(t, other) {
      WriteKeepsOther(s, id, wrote, wrote == bytes, other);
    }
    OneChanges(s, t, id);
  }

  lemma UnsettledStays(s: State, id: string)
    requires Kept(s) && id in s.saves && s.saves[id].tail != []
    ensures s.saves[id].progress.fate == Unsettled
  {
    assert Sound(s, id);
  }

  lemma WriteLinks(s: State, id: string, wrote: Bytes, whole: bool)
    requires Kept(s) && id in s.saves && s.saves[id].tail != [] && s.saves[id].progress.fate == Unsettled
    ensures Linked(RunWrite(s, id, wrote, whole))
  {
    assert Sound(s, id);
    SettlesStill(s, RunWrite(s, id, wrote, whole));
  }

  lemma WriteKeepsOther(s: State, id: string, wrote: Bytes, whole: bool, other: string)
    requires Kept(s) && id in s.saves && s.saves[id].tail != [] && other in s.saves && other != id
    ensures Sound(RunWrite(s, id, wrote, whole), other)
  {
    assert Sound(s, other);
    hide Shaped, Holds, Hidden, Linked;
    var t := RunWrite(s, id, wrote, whole);
    UntouchedStays(s, t, other);
    HiddenStays(s, t, other);
  }

  lemma WriteKeepsItself(s: State, id: string, bytes: Bytes, wrote: Bytes)
    requires Kept(s) && id in s.saves && s.saves[id].tail != [] && s.saves[id].tail[0] == Write(bytes) && wrote <= bytes
    ensures Sound(RunWrite(s, id, wrote, wrote == bytes), id)
  {
    hide Holds, Hidden, Linked, Partial, Pending;
    assert Sound(s, id);
    HiddenStays(s, RunWrite(s, id, wrote, wrote == bytes), id);
    TailShape(s, id);
    WriteHolds(s, id, bytes, wrote);
  }

  lemma WriteHolds(s: State, id: string, bytes: Bytes, wrote: Bytes)
    requires id in s.saves && Holds(s, id) && s.saves[id].progress.fate == Unsettled
    requires s.saves[id].tail != [] && s.saves[id].tail[0] == Write(bytes) && wrote <= bytes
    ensures Holds(RunWrite(s, id, wrote, wrote == bytes), id)
  {
    var soFar := s.disk.files[s.saves[id].file];
    assert soFar + (bytes + Pending(s.saves[id].tail[1..])) == soFar + bytes + Pending(s.saves[id].tail[1..]);
  }

  lemma RenameKeeps(s: State, id: string)
    requires Kept(s) && id in s.saves && s.saves[id].tail == [Rename] && id !in s.open
    requires Partial(s.saves[id].target, id) in s.disk.names
    ensures Kept(RunRename(s, id))
  {
    var t := RunRename(s, id);
    SettlesItself(s, t, id, Renamed);
    RenameLinks(s, id);
    hide Sound, Linked, Partial;
    forall other | other in s.saves && other != id ensures Sound(t, other) {
      RenameKeepsOther(s, id, other);
    }
    OneChanges(s, t, id);
  }

  lemma RenameLinks(s: State, id: string)
    requires Linked(s) && id in s.saves && s.saves[id].progress.fate == Unsettled
    requires Partial(s.saves[id].target, id) in s.disk.names
    ensures Linked(RunRename(s, id))
  {
    var t := RunRename(s, id);
    PartialsDiffer(s.saves[id].target, id, s.saves[id].target, id);
    SettlesStill(s, t);
    hide Partial;
    assert t.saves[id].progress.fate == Renamed && t.saves[id].target == s.saves[id].target;
    assert Settles(t, Partial(s.saves[id].target, id));
  }

  /** A rename onto the hidden name of another save takes that name away from it. */
  lemma RenameKeepsOther(s: State, id: string, other: string)
    requires Kept(s) && id in s.saves && other in s.saves && id != other
    requires Partial(s.saves[id].target, id) in s.disk.names && s.saves[id].progress.fate == Unsettled
    ensures Sound(RunRename(s, id), other)
  {
    assert Sound(s, id) && Sound(s, other);
    hide Linked, Holds;
    UntouchedStays(s, RunRename(s, id), other);
    PartialsDiffer(s.saves[id].target, id, s.saves[other].target, other);
    PartialsDiffer(s.saves[id].target, id, s.saves[id].target, id);
    hide Partial, Shaped;
  }

  lemma SettlesItself(s: State, t: State, id: string, fate: Fate)
    requires Kept(s) && id in s.saves && id in t.saves && fate != Unsettled && id !in t.open && t.opening == s.opening
    requires (s.saves[id].tail == [Rename] && fate == Renamed) || (s.saves[id].tail == [Remove] && fate == Removed)
    requires t.saves[id] == Settled(s.saves[id], fate)
    requires t.disk.files == s.disk.files && t.disk.next == s.disk.next
    ensures Sound(t, id) && s.saves[id].progress.fate == Unsettled
  {
    assert Sound(s, id);
    NoPiecesLeft(s.saves[id].tail);
  }

  lemma RemoveKeeps(s: State, id: string)
    requires Kept(s) && id in s.saves && s.saves[id].tail == [Remove] && id !in s.open
    ensures Kept(RunRemove(s, id))
  {
    var t := RunRemove(s, id);
    SettlesItself(s, t, id, Removed);
    RemoveLinks(s, id);
    hide Sound, Linked, Partial;
    forall other | other in s.saves && other != id ensures Sound(t, other) {
      RemoveKeepsOther(s, id, other);
    }
    OneChanges(s, t, id);
  }

  lemma RemoveLinks(s: State, id: string)
    requires Linked(s) && id in s.saves && s.saves[id].progress.fate == Unsettled
    ensures Linked(RunRemove(s, id))
  {
    var t := RunRemove(s, id);
    SettlesStill(s, t);
    hide Partial;
    assert t.saves[id].progress.fate == Removed && t.saves[id].target == s.saves[id].target;
    assert Settles(t, Partial(s.saves[id].target, id));
  }

  lemma RemoveKeepsOther(s: State, id: string, other: string)
    requires Kept(s) && id in s.saves && other in s.saves && id != other
    ensures Sound(RunRemove(s, id), other)
  {
    assert Sound(s, id) && Sound(s, other);
    hide Linked, Holds;
    UntouchedStays(s, RunRemove(s, id), other);
    PartialsDiffer(s.saves[id].target, id, s.saves[other].target, other);
    hide Partial, Shaped;
  }

  lemma AdvanceKeeps(s: State, id: string, outcome: Outcome)
    requires Kept(s) && id in s.saves && s.saves[id].tail != []
    ensures Kept(Advanced(s, id, outcome))
  {
    var tail := s.saves[id].tail;
    assert Sound(s, id);
    TailShape(s, id);
    hide Kept, Sound, Shaped, GoesOn, RunWrite, RunRename, RunRemove, Partial;
    match tail[0] {
      case Write(bytes) => WriteKeeps(s, id, bytes, WrittenPart(bytes, outcome));
      case Close =>
        NoPiecesLeft(tail);
        GoingOnKeeps(s, id, if outcome.succeeds then tail[1..] else [Remove]);
      case Rename =>
        NoPiecesLeft(tail);
        if outcome.succeeds && Partial(s.saves[id].target, id) in s.disk.names {
          RenameKeeps(s, id);
        } else {
          GoingOnKeeps(s, id, [Remove]);
        }
      case CloseQuietly =>
        NoPiecesLeft(tail);
        GoingOnKeeps(s, id, tail[1..]);
      case Remove => RemoveKeeps(s, id);
    }
  }

  lemma NextKeeps(s: State, e: Event)
    requires Kept(s) && Possible(s, e)
    ensures Kept(Next(s, e))
  {
    hide Kept, Begun, Registered, Written, Advanced, AbortedOwner, Leave;
    match e {
      case Begin(owner, target, id) => BeginKeeps(s, owner, target, id);
      case Register(id) => RegisterKeeps(s, id);
      case Piece(owner, id, bytes) =>
        if Owned(s, owner, id) {
          PieceKeeps(s, owner, id, bytes);
        } else {
          assert Written(s, owner, id, bytes) == s by { NotOwned(s, owner, id, bytes); }
        }
      case End(owner, id) =>
        if Owned(s, owner, id) {
          LeaveKeeps(s, id, [Close, Rename]);
        }
      case Abort(owner, id) =>
        if Owned(s, owner, id) {
          LeaveKeeps(s, id, [CloseQuietly, Remove]);
        }
      case AbortOwner(owner) => AbortOwnerKeeps(s, owner);
      case Advance(id, outcome) =>
        if id in s.saves && s.saves[id].tail != [] {
          AdvanceKeeps(s, id, outcome);
        } else {
          NothingToRun(s, id, outcome);
        }
    }
  }

  lemma NotOwned(s: State, owner: nat, id: string, bytes: Bytes)
    requires !Owned(s, owner, id)
    ensures Written(s, owner, id, bytes) == s
  {
  }

  lemma NothingToRun(s: State, id: string, outcome: Outcome)
    requires id in s.saves ==> s.saves[id].tail == []
    ensures Advanced(s, id, outcome) == s
  {
  }

  lemma {:induction false} EveryRunKeeps(start: State, run: seq<Event>)
    requires Runs(start, run)
    ensures Kept(After(start, run))
  {
    if run != [] {
      var n := |run| - 1;
      assert forall i :: 0 <= i < n ==> run[..n][..i] == run[..i];
      EveryRunKeeps(start, run[..n]);
      assert Possible(After(start, run[..n]), run[n]);
      NextKeeps(After(start, run[..n]), run[n]);
    }
  }

  // ---------------------------------------------------------------------------------------------
  // What a save may rely on

  /** The target gets the save's own file exactly when no other save was renamed onto its hidden name. */
  lemma RenameTakesOwnFile(start: State, run: seq<Event>, id: string)
    requires Runs(start, run)
    requires var s := After(start, run);
             id in s.saves && s.saves[id].tail == [Rename] && Partial(s.saves[id].target, id) in s.disk.names
    ensures var s := After(start, run);
            var t := RunRename(s, id);
            t.disk.names[s.saves[id].target] == s.saves[id].file <==> Partial(s.saves[id].target, id) !in s.overwritten
  {
    EveryRunKeeps(start, run);
    var s := After(start, run);
    assert Sound(s, id);
    PartialsDiffer(s.saves[id].target, id, s.saves[id].target, id);
  }

  /** What a renamed save left is all its pieces in the order of the calls exactly when no write fell short. */
  lemma RenamedHoldsThePieces(start: State, run: seq<Event>, id: string)
    requires Runs(start, run)
    requires id in After(start, run).saves && After(start, run).saves[id].progress.fate == Renamed
    ensures var s := After(start, run);
            var save := s.saves[id];
            save.file in s.disk.files && (s.disk.files[save.file] == save.progress.accepted <==> save.progress.whole)
  {
    EveryRunKeeps(start, run);
    assert Sound(After(start, run), id);
  }

  /** What running a step of one save leaves alone. */
  lemma AdvanceIsForOne(s: State, id: string, outcome: Outcome)
    ensures var t := Advanced(s, id, outcome);
            && t.saves.Keys == s.saves.Keys && t.open == s.open && t.opening == s.opening
            && (forall other :: other in s.saves && other != id ==> t.saves[other] == s.saves[other])
            && (id in s.saves ==> SameSave(s, t, id))
  {
    if id in s.saves && s.saves[id].tail != [] {
      match s.saves[id].tail[0]
      case Write(bytes) =>
        assert Advanced(s, id, outcome)
                 == RunWrite(s, id, WrittenPart(bytes, outcome), WrittenPart(bytes, outcome) == bytes);
      case _ =>
    }
  }

  ghost predicate SameSave(s: State, t: State, id: string)
    requires id in s.saves && id in t.saves
  {
    && t.saves[id].target == s.saves[id].target && t.saves[id].file == s.saves[id].file
    && t.saves[id].owner == s.saves[id].owner
  }

  /** What a page does with the saves it has. */
  predicate IsCall(e: Event) {
    e.Piece? || e.End? || e.Abort? || e.AbortOwner?
  }

  /** The calls on a save only queue steps, and only for its owner. */
  lemma CallsOnlyQueue(s: State, e: Event)
    requires Kept(s) && IsCall(e)
    ensures var t := Next(s, e);
            && t.disk == s.disk && t.overwritten == s.overwritten && t.saves.Keys == s.saves.Keys
            && t.opening == s.opening
            && forall id :: id in s.saves ==>
                 && SameSave(s, t, id) && t.saves[id].progress.fate == s.saves[id].progress.fate
                 && (e.owner != s.saves[id].owner || id !in s.open ==>
                       t.saves[id] == s.saves[id] && (id in t.open <==> id in s.open))
  {
    hide Linked, Sound;
  }

  /** A call that is not from the owner changes nothing of a save, and no call changes anything on disk by itself. */
  lemma OnlyTheOwnerActs(s: State, e: Event, id: string)
    requires Kept(s) && id in s.saves && IsCall(e) && e.owner != s.saves[id].owner
    ensures Next(s, e).saves[id] == s.saves[id] && (id in Next(s, e).open <==> id in s.open)
    ensures Next(s, e).disk == s.disk
  {
    hide Next, Kept;
    CallsOnlyQueue(s, e);
  }

  lemma BeginOnlyAdds(s: State, owner: nat, target: Path, id: string)
    requires Kept(s) && id !in s.saves
    ensures var t := Begun(s, owner, target, id);
            && (forall other :: other in s.saves ==>
                  && other in t.saves && t.saves[other] == s.saves[other] && other != id
                  && (other in t.open <==> other in s.open) && (other in t.opening <==> other in s.opening))
            && forall file :: file in s.disk.files ==> file in t.disk.files && t.disk.files[file] == s.disk.files[file]
  {
    hide Sound;
  }

  /** A step writes to the file of its own save, if to any. */
  lemma AdvanceWritesOwnFile(s: State, id: string, outcome: Outcome, file: nat)
    requires id in s.saves ==> file != s.saves[id].file || s.saves[id].tail == []
    ensures file in Advanced(s, id, outcome).disk.files <==> file in s.disk.files
    ensures file in s.disk.files ==> Advanced(s, id, outcome).disk.files[file] == s.disk.files[file]
  {
    if id in s.saves && s.saves[id].tail != [] {
      match s.saves[id].tail[0]
      case Write(bytes) =>
        assert Advanced(s, id, outcome)
                 == RunWrite(s, id, WrittenPart(bytes, outcome), WrittenPart(bytes, outcome) == bytes);
      case _ =>
    }
  }

  /** A settled save and its file stay as they are, whatever comes after. */
  lemma SettledForGood(s: State, e: Event, id: string)
    requires Kept(s) && Possible(s, e) && id in s.saves && s.saves[id].progress.fate != Unsettled
    ensures var t := Next(s, e);
            && id in t.saves && t.saves[id] == s.saves[id] && id !in t.open && id !in t.opening
            && s.saves[id].file in s.disk.files && s.saves[id].file in t.disk.files
            && t.disk.files[s.saves[id].file] == s.disk.files[s.saves[id].file]
  {
    assert Sound(s, id);
    SettledIsDone(s, id);
    match e {
      case Begin(owner, target, other) =>
        hide Begun, Sound;
        BeginOnlyAdds(s, owner, target, other);
      case Register(_) =>
      case Advance(other, outcome) =>
        hide Advanced, Sound;
        AdvanceIsForOne(s, other, outcome);
        AdvanceWritesOwnFile(s, other, outcome, s.saves[id].file);
        if other == id {
          NothingToRun(s, id, outcome);
        }
      case _ =>
        hide Next, Sound;
        CallsOnlyQueue(s, e);
    }
  }

  lemma SettledIsDone(s: State, id: string)
    requires id in s.saves && Sound(s, id) && s.saves[id].progress.fate != Unsettled
    ensures s.saves[id].tail == [] && id !in s.open && id !in s.opening && s.saves[id].file in s.disk.files
  {
  }

  function StepsLeft(tail: seq<Step>): nat {
    if tail == [] then 0 else (if tail[0] == Rename then 2 else 1) + StepsLeft(tail[1..])
  }

  /**
   A save that was ended or aborted settles: it has steps left until then, every one run leaves
   fewer, and nothing adds more.
   */
  lemma LeavingSettles(s: State, e: Event, id: string)
    requires Kept(s) && Possible(s, e) && id in s.saves && id !in s.open && id !in s.opening
    ensures s.saves[id].progress.fate == Unsettled <==> s.saves[id].tail != []
    ensures var t := Next(s, e);
            && id in t.saves && id !in t.open && id !in t.opening
            && (if e.Advance? && e.id == id && s.saves[id].tail != []
                then StepsLeft(t.saves[id].tail) < StepsLeft(s.saves[id].tail)
                else t.saves[id] == s.saves[id])
  {
    assert Sound(s, id);
    LeavingIsUnsettled(s, id);
    match e {
      case Begin(owner, target, other) =>
        hide Begun, Sound;
        BeginOnlyAdds(s, owner, target, other);
      case Register(_) =>
      case Advance(other, outcome) =>
        hide Advanced, Sound, StepsLeft;
        AdvanceIsForOne(s, other, outcome);
        if other == id {
          if s.saves[id].tail == [] {
            NothingToRun(s, id, outcome);
          } else {
            StepLeavesFewer(s, id, outcome);
          }
        }
      case _ =>
        hide Next, Sound;
        CallsOnlyQueue(s, e);
    }
  }

  lemma LeavingIsUnsettled(s: State, id: string)
    requires id in s.saves && Sound(s, id) && id !in s.open && id !in s.opening
    ensures s.saves[id].progress.fate == Unsettled <==> s.saves[id].tail != []
  {
  }

  lemma StepLeavesFewer(s: State, id: string, outcome: Outcome)
    requires id in s.saves && Sound(s, id) && s.saves[id].tail != []
    ensures id in Advanced(s, id, outcome).saves
    ensures StepsLeft(Advanced(s, id, outcome).saves[id].tail) < StepsLeft(s.saves[id].tail)
  {
    var tail := s.saves[id].tail;
    TailShape(s, id);
    hide Sound, Partial, Shaped;
    assert StepsLeft([Remove]) == 1 && StepsLeft([Rename]) == 2 by {
      assert [Remove][1..] == [] && [Rename][1..] == [];
    }
    match tail[0]
    case Write(bytes) =>
      assert Advanced(s, id, outcome)
               == RunWrite(s, id, WrittenPart(bytes, outcome), WrittenPart(bytes, outcome) == bytes);
    case Close => assert tail[1..] == [Rename];
    case CloseQuietly => assert tail[1..] == [Remove];
    case _ =>
  }

  // ---------------------------------------------------------------------------------------------
  // Discarding

  /** The save waits for its pieces and is then removed. */
  ghost predicate Discarding(s: State, id: string) {
    && id in s.saves && id !in s.open && id !in s.opening && s.saves[id].progress.fate == Unsettled
    && Removing(s.saves[id].tail)
  }

  predicate Removing(tail: seq<Step>) {
    var n := |tail|;
    && n > 0 && tail[n - 1] == Remove
    && forall i :: 0 <= i < n - 1 ==> if i == n - 2 then tail[i] == CloseQuietly else tail[i].Write?
  }

  /** One event: only an own step runs, the earlier ones first, and the last one takes the hidden name away. */
  lemma DiscardingGoesOn(s: State, e: Event, id: string)
    requires Kept(s) && Possible(s, e) && Discarding(s, id)
    ensures var t, save := Next(s, e), s.saves[id];
            && id in t.saves
            && if !(e.Advance? && e.id == id) then Discarding(t, id) && t.saves[id] == save
               else if |save.tail| > 1 then Discarding(t, id) && t.saves[id].tail == save.tail[1..]
               else t.saves[id].progress.fate == Removed && Partial(save.target, id) !in t.disk.names
  {
    LeavingSettles(s, e, id);
    hide Kept, Partial;
    if e.Advance? && e.id == id {
      var tail := s.saves[id].tail;
      match tail[0]
      case Write(bytes) =>
        var wrote := WrittenPart(bytes, e.outcome);
        assert Next(s, e) == RunWrite(s, id, wrote, wrote == bytes);
      case _ =>
    }
  }

  function StepsRun(run: seq<Event>, id: string): nat {
    if run == [] then 0
    else
      var last := run[|run| - 1];
      StepsRun(run[..|run| - 1], id) + if last.Advance? && last.id == id then 1 else 0
  }

  ghost predicate Continues(s: State, run: seq<Event>) {
    forall i :: 0 <= i < |run| ==> Possible(After(s, run[..i]), run[i])
  }

  lemma {:induction false} ContinuesKept(s: State, run: seq<Event>)
    requires Kept(s) && Continues(s, run)
    ensures Kept(After(s, run))
  {
    if run != [] {
      var n := |run| - 1;
      assert forall i :: 0 <= i < n ==> run[..n][..i] == run[..i];
      ContinuesKept(s, run[..n]);
      assert Possible(After(s, run[..n]), run[n]);
      NextKeeps(After(s, run[..n]), run[n]);
    }
  }

  /**
   A discarded save is removed, never renamed, whatever comes in between and however its steps go:
   exactly when as many of its steps ran as were queued with the pieces before it.
   */
  lemma {:induction false} DiscardRemoves(s: State, run: seq<Event>, id: string)
    requires Kept(s) && Continues(s, run) && Discarding(s, id)
    ensures var t, n := After(s, run), |s.saves[id].tail|;
            && id in t.saves
            && if StepsRun(run, id) < n
               then Discarding(t, id) && t.saves[id].tail == s.saves[id].tail[StepsRun(run, id)..]
               else t.saves[id].progress.fate == Removed
  {
    assert s.saves[id].tail != [];
    hide Kept, Possible, Next, Removing;
    if run != [] {
      var k := |run| - 1;
      var before := After(s, run[..k]);
      assert forall i :: 0 <= i < k ==> run[..k][..i] == run[..i];
      ContinuesKept(s, run[..k]);
      assert Possible(before, run[k]);
      DiscardRemoves(s, run[..k], id);
      if StepsRun(run[..k], id) < |s.saves[id].tail| {
        DiscardingGoesOn(before, run[k], id);
      } else {
        SettledForGood(before, run[k], id);
      }
    }
  }

  /** An abort discards: the pieces queued so far still run first. */
  lemma AbortDiscards(s: State, owner: nat, id: string)
    requires Kept(s) && Owned(s, owner, id)
    ensures Discarding(Discarded(s, id), id) && Discarding(AbortedOwner(s, owner), id)
    ensures Discarded(s, id).saves[id].tail == s.saves[id].tail + [CloseQuietly, Remove]
         == AbortedOwner(s, owner).saves[id].tail
  {
    assert Sound(s, id);
    var tail := s.saves[id].tail;
    hide Sound, Linked;
    assert Removing(tail + [CloseQuietly, Remove]);
  }

  // ---------------------------------------------------------------------------------------------
  // What the calls do, and how a save ends

  /** A save begins as an empty file under its hidden name, unless that name exists. */
  lemma BeginOutcome(s: State, owner: nat, target: Path, id: string)
    requires Kept(s) && Possible(s, Begin(owner, target, id))
    ensures var t, hidden := Next(s, Begin(owner, target, id)), Partial(target, id);
            if hidden in s.disk.names then t == s
            else
              && t.opening == s.opening + {id} && t.open == s.open && t.overwritten == s.overwritten
              && t.saves.Keys == s.saves.Keys + {id}
              && (forall other :: other in s.saves ==> t.saves[other] == s.saves[other])
              && t.saves[id].owner == owner && t.saves[id].target == target && t.saves[id].tail == []
              && t.saves[id].progress == Progress([], true, Unsettled)
              && t.saves[id].file !in s.disk.files
              && t.disk.names == s.disk.names[hidden := t.saves[id].file]
              && t.disk.files == s.disk.files[t.saves[id].file := []]
  {
    hide Sound;
  }

  /** A piece of the owner waits behind what is queued; one over the bound aborts; any other changes nothing. */
  lemma PieceOutcome(s: State, owner: nat, id: string, bytes: Bytes)
    ensures var t := Next(s, Piece(owner, id, bytes));
            if !Owned(s, owner, id) then t == s
            else if |bytes| > SAVE_STREAM_PIECE_MAX then t == Next(s, Abort(owner, id))
            else
              var save := s.saves[id];
              && t.opening == s.opening && t.open == s.open && t.disk == s.disk && t.overwritten == s.overwritten
              && t.saves == s.saves[id := save.(
                   tail := save.tail + [Write(bytes)],
                   progress := save.progress.(accepted := save.progress.accepted + bytes))]
  {
  }

  /** Ending and aborting take the id away and queue how the save ends, for the owner alone. */
  lemma LeaveOutcome(s: State, owner: nat, id: string, ends: bool)
    ensures var t := Next(s, if ends then End(owner, id) else Abort(owner, id));
            if !Owned(s, owner, id) then t == s
            else
              var last := if ends then [Close, Rename] else [CloseQuietly, Remove];
              && t.opening == s.opening && t.open == s.open - {id}
              && t.disk == s.disk && t.overwritten == s.overwritten
              && t.saves == s.saves[id := s.saves[id].(tail := s.saves[id].tail + last)]
  {
  }

  /** The save waits for its pieces, closes and takes its target's name. */
  ghost predicate Ending(s: State, id: string) {
    && id in s.saves && id !in s.open && id !in s.opening && s.saves[id].progress.fate == Unsettled
    && Renaming(s.saves[id].tail)
  }

  predicate Renaming(tail: seq<Step>) {
    var n := |tail|;
    && n > 0 && tail[n - 1] == Rename
    && forall i :: 0 <= i < n - 1 ==> if i == n - 2 then tail[i] == Close else tail[i].Write?
  }

  /**
   One event of an ending save: its pieces and closing come first, then the target gets what the
   hidden name leads to. A close or rename that fails, and a hidden name that is gone, discard it.
   */
  lemma EndingGoesOn(s: State, e: Event, id: string)
    requires Kept(s) && Possible(s, e) && Ending(s, id)
    ensures var t, save := Next(s, e), s.saves[id];
            var hidden := Partial(save.target, id);
            && id in t.saves
            && if !(e.Advance? && e.id == id) then Ending(t, id) && t.saves[id] == save
               else if |save.tail| > 2 || (|save.tail| == 2 && e.outcome.succeeds) then
                 Ending(t, id) && t.saves[id].tail == save.tail[1..]
               else if |save.tail| == 1 && e.outcome.succeeds && hidden in s.disk.names then
                 && t.saves[id].progress.fate == Renamed
                 && t.disk.names == s.disk.names[save.target := s.disk.names[hidden]] - {hidden}
                 && t.disk.files == s.disk.files
               else Discarding(t, id) && t.disk == s.disk
  {
    LeavingSettles(s, e, id);
    hide Kept, Partial;
    if e.Advance? && e.id == id {
      var tail := s.saves[id].tail;
      match tail[0]
      case Write(bytes) =>
        var wrote := WrittenPart(bytes, e.outcome);
        assert Next(s, e) == RunWrite(s, id, wrote, wrote == bytes);
      case _ =>
    }
  }

  /** An end begins this. */
  lemma EndEnds(s: State, owner: nat, id: string)
    requires Kept(s) && Owned(s, owner, id)
    ensures Ending(Next(s, End(owner, id)), id)
  {
    assert Sound(s, id);
    var tail := s.saves[id].tail;
    hide Sound, Linked;
    assert Renaming(tail + [Close, Rename]);
  }

  /** A piece goes to the end of the save's own file, as much of it as the write puts down. */
  lemma WriteOutcome(s: State, id: string, bytes: Bytes, outcome: Outcome)
    requires Kept(s) && id in s.saves && s.saves[id].tail != [] && s.saves[id].tail[0] == Write(bytes)
    ensures var t, save := Next(s, Advance(id, outcome)), s.saves[id];
            var wrote := if outcome.wrote < |bytes| then outcome.wrote else |bytes|;
            && save.file in s.disk.files
            && t.disk == s.disk.(files := s.disk.files[save.file := s.disk.files[save.file] + bytes[..wrote]])
            && t.saves == s.saves[id := save.(tail := save.tail[1..],
                 progress := save.progress.(whole := save.progress.whole && wrote == |bytes|))]
            && t.open == s.open && t.opening == s.opening && t.overwritten == s.overwritten
  {
    assert Sound(s, id);
    hide Linked, Partial;
    var wrote := WrittenPart(bytes, outcome);
    assert wrote == bytes <==> outcome.wrote >= |bytes|;
    assert Next(s, Advance(id, outcome)) == RunWrite(s, id, wrote, wrote == bytes);
  }

  // ---------------------------------------------------------------------------------------------
  // A window that goes

  /** The owner has no save that answers or is about to. */
  ghost predicate NothingOpen(s: State, owner: nat) {
    forall id :: id in s.saves && s.saves[id].owner == owner ==> id !in s.open && id !in s.opening
  }

  /**
   Aborting the saves of an owner leaves none of them open exactly when none of them was still
   waiting for its file.
   */
  lemma AbortOwnerLeavesNothing(s: State, owner: nat)
    requires Kept(s)
    ensures NothingOpen(AbortedOwner(s, owner), owner) <==> forall id :: id in s.opening ==> s.saves[id].owner != owner
  {
    hide Sound, Linked;
    var t := AbortedOwner(s, owner);
    if NothingOpen(t, owner) {
      forall id | id in s.opening ensures s.saves[id].owner != owner {
        assert t.saves[id].owner == s.saves[id].owner;
      }
    }
  }

  /** A save whose file was made before the abort and that is put on record after it stays open. */
  lemma OpeningIsMissed(s: State, owner: nat, id: string)
    requires Kept(s) && id in s.opening && s.saves[id].owner == owner
    ensures var t := Registered(AbortedOwner(s, owner), id);
            Owned(t, owner, id) && t.saves[id] == s.saves[id] && t.saves[id].tail == [] && Kept(t)
  {
    assert Sound(s, id);
    AbortOwnerKeeps(s, owner);
    RegisterKeeps(AbortedOwner(s, owner), id);
    hide Kept, Sound;
  }

  /** Nobody but its owner, which is gone, ends it: it stays open and unsettled for good. */
  lemma {:induction false} StaysOpen(s: State, run: seq<Event>, id: string)
    requires Kept(s) && Continues(s, run) && id in s.open && s.saves[id].tail == []
    requires forall i :: 0 <= i < |run| && IsCall(run[i]) ==> run[i].owner != s.saves[id].owner
    ensures id in After(s, run).open && id in After(s, run).saves && After(s, run).saves[id] == s.saves[id]
    ensures s.saves[id].progress.fate == Unsettled
  {
    assert Sound(s, id);
    hide Kept, Sound, Possible, Next;
    if run != [] {
      var k := |run| - 1;
      var before := After(s, run[..k]);
      assert forall i :: 0 <= i < k ==> run[..k][..i] == run[..i];
      ContinuesKept(s, run[..k]);
      assert Possible(before, run[k]);
      StaysOpen(s, run[..k], id);
      StaysOpenOnce(before, run[k], id);
    }
  }

  lemma StaysOpenOnce(s: State, e: Event, id: string)
    requires Kept(s) && Possible(s, e) && id in s.open && id in s.saves && s.saves[id].tail == []
    requires IsCall(e) ==> e.owner != s.saves[id].owner
    ensures id in Next(s, e).open && id in Next(s, e).saves && Next(s, e).saves[id] == s.saves[id]
  {
    match e {
      case Begin(owner, target, other) =>
        hide Begun, Kept;
        BeginOnlyAdds(s, owner, target, other);
      case Register(_) =>
      case Advance(other, outcome) =>
        hide Advanced, Kept;
        AdvanceIsForOne(s, other, outcome);
        if other == id {
          NothingToRun(s, id, outcome);
        }
      case _ =>
        hide Next, Kept;
        OnlyTheOwnerActs(s, e, id);
    }
  }

  // ---------------------------------------------------------------------------------------------
  // The names a person sees

  /** No save's target is the hidden name of one. */
  ghost predicate NoneHidden(s: State) {
    forall id, other :: id in s.saves && other in s.saves ==>
        s.saves[id].target != Partial(s.saves[other].target, other)
  }

  ghost predicate AsBefore(start: State, s: State, path: Path)
    requires path in s.disk.names
  {
    var file := s.disk.names[path];
    && path in start.disk.names && start.disk.names[path] == file && file < start.disk.next
    && file in start.disk.files && file in s.disk.files && s.disk.files[file] == start.disk.files[file]
  }

  ghost predicate Shows(s: State, path: Path, id: string)
    requires path in s.disk.names && id in s.saves
  {
    var save := s.saves[id];
    && s.disk.names[path] == save.file
    && ((save.progress.fate == Unsettled && path == Partial(save.target, id))
        || (save.progress.fate == Renamed && path == save.target))
  }

  ghost predicate Seen(start: State, s: State, path: Path)
    requires path in s.disk.names
  {
    AsBefore(start, s, path) || exists id :: id in s.saves && Shows(s, path, id)
  }

  ghost predicate Visible(start: State, s: State) {
    && start.disk.next <= s.disk.next
    && (forall path :: path in s.disk.names ==> Seen(start, s, path))
    && (forall id :: id in s.saves ==> start.disk.next <= s.saves[id].file)
    && forall path :: path in s.overwritten ==> IsTarget(s, path)
  }

  ghost predicate IsTarget(s: State, path: Path) {
    exists id :: id in s.saves && s.saves[id].target == path
  }

  /**
   Under every name there is what was there at the start, a save in progress under its hidden name,
   or one that was renamed.
   */
  lemma {:induction false} EveryNameIsSeen(start: State, run: seq<Event>)
    requires Runs(start, run) && NoneHidden(After(start, run))
    ensures Visible(start, After(start, run))
  {
    hide NoneHidden, Visible, Fresh, Kept, Possible, Next;
    if run == [] {
      NothingYet(start);
    } else {
      var n := |run| - 1;
      var s := After(start, run[..n]);
      assert forall i :: 0 <= i < n ==> run[..n][..i] == run[..i];
      EveryRunKeeps(start, run[..n]);
      assert Possible(s, run[n]);
      NoneHiddenBefore(s, run[n]);
      EveryNameIsSeen(start, run[..n]);
      NextIsSeen(start, s, run[n]);
    }
  }

  lemma NothingYet(start: State)
    requires Fresh(start)
    ensures Visible(start, start)
  {
  }

  /** Saves are never taken away, nor do they change owner, target or file. */
  lemma SavesStay(s: State, e: Event, id: string)
    requires Kept(s) && Possible(s, e) && id in s.saves
    ensures id in Next(s, e).saves && SameSave(s, Next(s, e), id)
  {
    match e {
      case Begin(owner, target, other) =>
        hide Begun, Kept;
        BeginOnlyAdds(s, owner, target, other);
      case Register(_) =>
      case Advance(other, outcome) =>
        hide Advanced, Kept;
        AdvanceIsForOne(s, other, outcome);
      case _ =>
        hide Next, Kept;
        CallsOnlyQueue(s, e);
    }
  }

  lemma NoneHiddenBefore(s: State, e: Event)
    requires Kept(s) && Possible(s, e) && NoneHidden(Next(s, e))
    ensures NoneHidden(s)
  {
    hide Kept, Possible, Next, Partial;
    forall id, other | id in s.saves
        && other in s.saves ensures s.saves[id].target != Partial(s.saves[other].target, other) {
      SavesStay(s, e, id);
      SavesStay(s, e, other);
    }
  }

  lemma NextIsSeen(start: State, s: State, e: Event)
    requires Kept(s) && Possible(s, e) && NoneHidden(s) && Visible(start, s)
    ensures Visible(start, Next(s, e))
  {
    match e {
      case Begin(owner, target, id) =>
        hide Begun, Kept, Visible;
        BeginIsSeen(start, s, owner, target, id);
      case Register(_) =>
        hide Kept, Visible;
        QueueIsSeen(start, s, Next(s, e));
      case Advance(id, outcome) =>
        hide Advanced, Kept, Visible;
        if id !in s.saves || s.saves[id].tail == [] {
          NothingToRun(s, id, outcome);
        } else {
          AdvanceIsSeen(start, s, id, outcome);
        }
      case _ =>
        hide Next, Kept, Visible;
        CallsOnlyQueue(s, e);
        QueueIsSeen(start, s, Next(s, e));
    }
  }

  lemma QueueIsSeen(start: State, s: State, t: State)
    requires Visible(start, s) && t.disk == s.disk && t.overwritten == s.overwritten && t.saves.Keys == s.saves.Keys
    requires forall id :: id in s.saves ==> SameSave(s, t, id) && t.saves[id].progress.fate == s.saves[id].progress.fate
    ensures Visible(start, t)
  {
    forall path | path in t.disk.names ensures Seen(start, t, path) {
      assert Seen(start, s, path);
      if !AsBefore(start, s, path) {
        var id :| id in s.saves && Shows(s, path, id);
        assert Shows(t, path, id);
      }
    }
    TargetsStay(s, t);
  }

  /** A name that was taken is still the target of a save. */
  lemma TargetsStay(s: State, t: State)
    requires forall id :: id in s.saves ==> id in t.saves && SameSave(s, t, id)
    ensures forall path :: IsTarget(s, path) ==> IsTarget(t, path)
  {
    forall path | IsTarget(s, path) ensures IsTarget(t, path) {
      var id :| id in s.saves && s.saves[id].target == path;
      assert t.saves[id].target == path;
    }
  }

  /** A name keeps what it shows while its file, its save and that save's fate stay. */
  lemma SeenStill(start: State, s: State, t: State, path: Path)
    requires path in s.disk.names && path in t.disk.names && Seen(start, s, path)
    requires s.disk.names[path] == t.disk.names[path]
    requires forall id :: id in s.saves && Shows(s, path, id) ==> id in t.saves && t.saves[id] == s.saves[id]
    requires s.disk.names[path] in start.disk.files && s.disk.names[path] < start.disk.next ==>
               s.disk.names[path] in t.disk.files && (s.disk.names[path] in s.disk.files ==>
                 t.disk.files[s.disk.names[path]] == s.disk.files[s.disk.names[path]])
    ensures Seen(start, t, path)
  {
    if !AsBefore(start, s, path) {
      var id :| id in s.saves && Shows(s, path, id);
      assert Shows(t, path, id);
    }
  }

  lemma BeginIsSeen(start: State, s: State, owner: nat, target: Path, id: string)
    requires Kept(s) && Possible(s, Begin(owner, target, id)) && Visible(start, s)
    ensures Visible(start, Begun(s, owner, target, id))
  {
    var t := Begun(s, owner, target, id);
    var partial := Partial(target, id);
    if partial !in s.disk.names {
      hide Sound, Partial;
      BeginOnlyAdds(s, owner, target, id);
      TargetsStay(s, t);
      assert forall other :: other in s.saves ==> s.saves[other].file < s.disk.next by {
        forall other | other in s.saves ensures s.saves[other].file < s.disk.next {
          assert Sound(s, other);
          FileIsOld(s, other);
        }
      }
      assert Shows(t, partial, id);
      forall path | path in s.disk.names ensures Seen(start, t, path) {
        SeenStill(start, s, t, path);
      }
    }
  }

  lemma FileIsOld(s: State, id: string)
    requires id in s.saves && Sound(s, id)
    ensures s.saves[id].file < s.disk.next && s.saves[id].file in s.disk.files
  {
  }

  lemma AdvanceIsSeen(start: State, s: State, id: string, outcome: Outcome)
    requires Kept(s) && NoneHidden(s) && Visible(start, s) && id in s.saves && s.saves[id].tail != []
    ensures Visible(start, Advanced(s, id, outcome))
  {
    assert Sound(s, id);
    TailShape(s, id);
    hide Kept, Visible, Sound, Shaped, RunWrite, RunRename, RunRemove, Partial;
    match s.saves[id].tail[0] {
      case Write(bytes) => WriteIsSeen(start, s, id, WrittenPart(bytes, outcome), WrittenPart(bytes, outcome) == bytes);
      case Rename =>
        if outcome.succeeds && Partial(s.saves[id].target, id) in s.disk.names {
          RenameIsSeen(start, s, id);
        } else {
          QueueIsSeen(start, s, Advanced(s, id, outcome));
        }
      case Remove => RemoveIsSeen(start, s, id);
      case _ => QueueIsSeen(start, s, Advanced(s, id, outcome));
    }
  }

  lemma WriteIsSeen(start: State, s: State, id: string, wrote: Bytes, whole: bool)
    requires Visible(start, s) && id in s.saves && s.saves[id].tail != []
    ensures Visible(start, RunWrite(s, id, wrote, whole))
  {
    var t := RunWrite(s, id, wrote, whole);
    TargetsStay(s, t);
    forall path | path in t.disk.names ensures Seen(start, t, path) {
      assert Seen(start, s, path);
      if !AsBefore(start, s, path) {
        var other :| other in s.saves && Shows(s, path, other);
        assert Shows(t, path, other);
      }
    }
  }

  lemma RenameIsSeen(start: State, s: State, id: string)
    requires Kept(s) && NoneHidden(s) && Visible(start, s) && id in s.saves && s.saves[id].tail == [Rename]
    requires Partial(s.saves[id].target, id) in s.disk.names
    ensures Visible(start, RunRename(s, id))
  {
    var t := RunRename(s, id);
    UnsettledStays(s, id);
    TargetsStay(s, t);
    NotTaken(start, s, id);
    forall path | path in t.disk.names ensures Seen(start, t, path) {
      RenamedIsSeen(start, s, id, path);
    }
  }

  lemma RenamedIsSeen(start: State, s: State, id: string, path: Path)
    requires Kept(s) && NoneHidden(s) && Visible(start, s) && id in s.saves && s.saves[id].tail == [Rename]
    requires Partial(s.saves[id].target, id) in s.disk.names && path in RunRename(s, id).disk.names
    ensures Seen(start, RunRename(s, id), path)
  {
    UnsettledStays(s, id);
    NotTaken(start, s, id);
    hide Kept, NoneHidden, Partial;
    var t := RunRename(s, id);
    if path == s.saves[id].target {
      assert Shows(t, path, id);
    } else {
      OnlyItsHiddenName(s, id, path);
      assert s.saves[id].progress.fate == Unsettled;
      SeenStill(start, s, t, path);
    }
  }

  /** Without such targets nothing was renamed onto a hidden name, so it leads to the save's own file. */
  lemma NotTaken(start: State, s: State, id: string)
    requires Kept(s) && NoneHidden(s) && Visible(start, s) && id in s.saves && s.saves[id].progress.fate == Unsettled
    ensures Partial(s.saves[id].target, id) in s.disk.names
    ensures s.disk.names[Partial(s.saves[id].target, id)] == s.saves[id].file
  {
    assert Sound(s, id);
    hide Shaped, Holds, Linked, Partial;
  }

  lemma OnlyItsHiddenName(s: State, id: string, path: Path)
    requires Kept(s) && id in s.saves && s.saves[id].progress.fate == Unsettled
    requires path in s.disk.names && path != Partial(s.saves[id].target, id)
    ensures s.disk.names[path] != s.saves[id].file
  {
    assert Sound(s, id);
    hide Shaped, Holds, Linked, Partial;
  }

  lemma RemoveIsSeen(start: State, s: State, id: string)
    requires Kept(s) && Visible(start, s) && id in s.saves && s.saves[id].tail == [Remove]
    ensures Visible(start, RunRemove(s, id))
  {
    var t := RunRemove(s, id);
    UnsettledStays(s, id);
    TargetsStay(s, t);
    hide Kept, Partial;
    forall path | path in t.disk.names ensures Seen(start, t, path) {
      OnlyItsHiddenName(s, id, path);
      SeenStill(start, s, t, path);
    }
  }

  /**
   No part of a save shows: outside the hidden names a name shows what it did at the start, or all
   of a renamed save.
   */
  lemma NoHalfFiles(start: State, run: seq<Event>, path: Path)
    requires Runs(start, run) && NoneHidden(After(start, run)) && path in After(start, run).disk.names
    requires forall id :: id in After(start, run).saves ==> After(start, run).saves[id].progress.whole
    ensures var s := After(start, run);
            || AsBefore(start, s, path)
            || (exists id ::
                  id in s.saves && s.saves[id].progress.fate == Unsettled && path == Partial(s.saves[id].target, id))
            || exists id :: id in s.saves && s.saves[id].target == path && s.disk.names[path] in s.disk.files
                            && s.disk.files[s.disk.names[path]] == s.saves[id].progress.accepted
  {
    var s := After(start, run);
    EveryNameIsSeen(start, run);
    EveryRunKeeps(start, run);
    assert Seen(start, s, path);
    if !AsBefore(start, s, path) {
      var id :| id in s.saves && Shows(s, path, id);
      assert Sound(s, id);
      if s.saves[id].progress.fate == Renamed {
        RenamedHoldsThePieces(start, run, id);
      }
    }
  }

  const GOES_WELL := Outcome(0, true)

  /** A save whose target is the hidden name of another one takes that name, and the other publishes the wrong file. */
  lemma HiddenTargetTakesTheName(start: State, target: Path, one: string, two: string)
    requires Fresh(start) && one != two && |one| == ID_LENGTH && |two| == ID_LENGTH
    requires Partial(target, one) !in start.disk.names && Partial(Partial(target, one), two) !in start.disk.names
    ensures var first := Registered(Begun(start, 1, target, one), one);
            var second := Registered(Begun(first, 1, Partial(target, one), two), two);
            var taken := Advanced(Advanced(Next(second, End(1, two)), two, GOES_WELL), two, GOES_WELL);
            var done := Advanced(Advanced(Next(taken, End(1, one)), one, GOES_WELL), one, GOES_WELL);
            && Possible(start, Begin(1, target, one)) && Possible(first, Begin(1, Partial(target, one), two))
            && one in done.saves && two in done.saves && target in done.disk.names
            && done.saves[one].progress.fate == Renamed
            && done.disk.names[target] == done.saves[two].file != done.saves[one].file
  {
    var hidden := Partial(target, one);
    PartialsDiffer(target, one, hidden, two);
    PartialsDiffer(hidden, two, hidden, two);
    PartialsDiffer(target, one, target, one);
    hide Partial;
    var first := Registered(Begun(start, 1, target, one), one);
    var second := Registered(Begun(first, 1, hidden, two), two);
    EndAndRename(second, two);
    var taken := Advanced(Advanced(Next(second, End(1, two)), two, GOES_WELL), two, GOES_WELL);
    assert taken.disk.names[hidden] == start.disk.next + 1;
    EndAndRename(taken, one);
  }

  /** An empty save that is ended gets its target's name. */
  lemma EndAndRename(s: State, id: string)
    requires Owned(s, 1, id) && s.saves[id].tail == [] && Partial(s.saves[id].target, id) in s.disk.names
    ensures Advanced(Advanced(Next(s, End(1, id)), id, GOES_WELL), id, GOES_WELL)
         == RunRename(s, id).(open := s.open - {id})
  {
    hide Partial;
    var save := s.saves[id];
    var ending := Next(s, End(1, id));
    assert [] + [Close, Rename] == [Close, Rename] && [Close, Rename][1..] == [Rename];
    assert ending == s.(open := s.open - {id}, saves := s.saves[id := save.(tail := [Close, Rename])]);
    var closed := Advanced(ending, id, GOES_WELL);
    assert closed == s.(open := s.open - {id}, saves := s.saves[id := save.(tail := [Rename])]);
    assert Settled(save.(tail := [Rename]), Renamed) == Settled(save, Renamed);
  }

  const FALLS_SHORT := Outcome(0, false)

  /** A write that falls short is not noticed: the save is renamed all the same, here without its only byte. */
  lemma ShortWriteIsRenamed(start: State, target: Path, id: string)
    requires Fresh(start) && |id| == ID_LENGTH && Partial(target, id) !in start.disk.names
    ensures var run := [Begin(1, target, id), Register(id), Piece(1, id, [7]), End(1, id),
                        Advance(id, FALLS_SHORT), Advance(id, GOES_WELL), Advance(id, GOES_WELL)];
            var done := After(start, run);
            && Runs(start, run)
            && id in done.saves && done.saves[id].progress == Progress([7], false, Renamed)
            && target in done.disk.names && done.disk.names[target] in done.disk.files
            && done.disk.files[done.disk.names[target]] == []
  {
    PartialsDiffer(target, id, target, id);
    SevenIsQueued(start, target, id);
    hide Partial, Begun, Written, Leave, Advanced;
    var ending := Next(Next(Next(Next(start, Begin(1, target, id)), Register(id)), Piece(1, id, [7])), End(1, id));
    ShortThenRenamed(ending, id, [7]);
    RunOfSeven(start, [Begin(1, target, id), Register(id), Piece(1, id, [7]), End(1, id),
                       Advance(id, FALLS_SHORT), Advance(id, GOES_WELL), Advance(id, GOES_WELL)]);
  }

  lemma ShortThenRenamed(s: State, id: string, bytes: Bytes)
    requires id in s.saves && s.saves[id].tail == [Write(bytes), Close, Rename] && bytes != []
    requires Partial(s.saves[id].target, id) in s.disk.names
    ensures Next(Next(Next(s, Advance(id, FALLS_SHORT)), Advance(id, GOES_WELL)), Advance(id, GOES_WELL))
         == RunRename(RunWrite(s, id, [], false), id)
  {
    hide Partial;
    var written := Next(s, Advance(id, FALLS_SHORT));
    assert written == RunWrite(s, id, [], false) && written.saves[id].tail == [Close, Rename];
    var closed := Next(written, Advance(id, GOES_WELL));
    assert closed == GoesOn(written, id, [Rename]);
  }

  lemma SevenIsQueued(start: State, target: Path, id: string)
    requires Fresh(start) && Partial(target, id) !in start.disk.names
    ensures var file := start.disk.next;
            var tail := [Write([7]), Close, Rename];
            Next(Next(Next(Next(start, Begin(1, target, id)), Register(id)), Piece(1, id, [7])), End(1, id))
            == State({}, {}, map[id := OpenSave(1, target, file, tail, Progress([7], true, Unsettled))],
                     Disk(start.disk.names[Partial(target, id) := file], start.disk.files[file := []], file + 1), {})
  {
    hide Partial;
    var registered := Next(Next(start, Begin(1, target, id)), Register(id));
    assert registered.opening == {} && registered.open == {id};
    assert [] + [Write([7])] == [Write([7])] && [] + [7] == [7];
    assert [Write([7])] + [Close, Rename] == [Write([7]), Close, Rename];
    assert {id} - {id} == {};
  }

  /** The states of a run of seven events. */
  lemma RunOfSeven(start: State, run: seq<Event>)
    requires |run| == 7 && Fresh(start) && Possible(start, run[0]) && forall i :: 1 <= i < 7 ==> !run[i].Begin?
    ensures Runs(start, run)
    ensures After(start, run)
         == Next(Next(Next(Next(Next(Next(Next(start, run[0]), run[1]), run[2]), run[3]), run[4]), run[5]), run[6])
  {
    hide Next, Fresh;
    assert run[..0] == [] && run[..7] == run;
    forall i | 0 <= i < 7 ensures After(start, run[..i + 1]) == Next(After(start, run[..i]), run[i]) {
      assert run[..i + 1][..i] == run[..i];
    }
    assert After(start, run[..1]) == Next(start, run[0]);
    assert After(start, run[..2]) == Next(After(start, run[..1]), run[1]);
    assert After(start, run[..3]) == Next(After(start, run[..2]), run[2]);
    assert After(start, run[..4]) == Next(After(start, run[..3]), run[3]);
    assert After(start, run[..5]) == Next(After(start, run[..4]), run[4]);
    assert After(start, run[..6]) == Next(After(start, run[..5]), run[5]);
    assert After(start, run[..7]) == Next(After(start, run[..6]), run[6]);
  }

  // ---------------------------------------------------------------------------------------------
  // The object itself

  datatype Result<T> = Ok(value: T) | Refused(why: string)

  class SaveStreams {
    // The ids whose file was made but that do not answer yet, those that answer, and every save; a save that left
    // still has its steps to run.
    var opening: set<string>
    var open: set<string>
    var saves: map<string, OpenSave>
    var disk: Disk
    ghost var overwritten: set<Path>

    ghost function Model(): State
      reads this
    {
      State(opening, open, saves, disk, overwritten)
    }

    constructor (disk: Disk)
      requires forall file :: file in disk.files ==> file < disk.next
      requires forall path :: path in disk.names ==> disk.names[path] in disk.files
      ensures Kept(Model()) && Fresh(Model()) && this.disk == disk
    {
      opening, open, saves, overwritten := {}, {}, map[], {};
      this.disk := disk;
    }

    /** A save up to its wait for the hidden file, which must not exist yet; `id` is random. */
    method Begin(owner: nat, target: Path, id: string) returns (result: Result<string>)
      requires Kept(Model()) && |id| == ID_LENGTH && id !in saves
      modifies this
      ensures Model() == Next(old(Model()), Event.Begin(owner, target, id)) && Kept(Model())
      ensures result.Ok? <==> Partial(target, id) !in old(disk.names)
      ensures result.Ok? ==> result.value == id && id in opening
    {
      hide Kept;
      NextKeeps(Model(), Event.Begin(owner, target, id));
      var partial := Partial(target, id);
      if partial in disk.names {
        return Refused("The file exists");
      }
      var file := disk.next;
      disk := Disk(disk.names[partial := file], disk.files[file := []], file + 1);
      saves := saves[id := OpenSave(owner, target, file, [], Progress([], true, Unsettled))];
      opening := opening + {id};
      return Ok(id);
    }

    /** What follows that wait: the save answers from here on. */
    method Register(id: string)
      requires Kept(Model())
      modifies this`opening, this`open
      ensures Model() == Next(old(Model()), Event.Register(id)) && Kept(Model())
    {
      hide Kept;
      NextKeeps(Model(), Event.Register(id));
      if id in opening {
        opening, open := opening - {id}, open + {id};
      }
    }

    method Write(owner: nat, id: string, bytes: Bytes) returns (result: Result<()>)
      requires Kept(Model())
      modifies this
      ensures Model() == Next(old(Model()), Piece(owner, id, bytes)) && Kept(Model())
      ensures result.Ok? <==> Owned(old(Model()), owner, id) && |bytes| <= SAVE_STREAM_PIECE_MAX
    {
      hide Kept;
      NextKeeps(Model(), Piece(owner, id, bytes));
      if !(id in open && id in saves && saves[id].owner == owner) {
        return Refused("No such save");
      }
      if |bytes| > SAVE_STREAM_PIECE_MAX {
        Abort(owner, id);
        return Refused("A piece is too large");
      }
      var save := saves[id];
      saves := saves[id := save.(tail := save.tail + [Step.Write(bytes)],
                                 progress := save.progress.(accepted := save.progress.accepted + bytes))];
      return Ok(());
    }

    /** The answer is the path the file has once the queued steps went well. */
    method End(owner: nat, id: string) returns (result: Result<Path>)
      requires Kept(Model())
      modifies this`open, this`saves
      ensures Model() == Next(old(Model()), Event.End(owner, id)) && Kept(Model())
      ensures result.Ok? <==> Owned(old(Model()), owner, id)
    {
      hide Kept;
      NextKeeps(Model(), Event.End(owner, id));
      if !(id in open && id in saves && saves[id].owner == owner) {
        return Refused("No such save");
      }
      var save := saves[id];
      open := open - {id};
      saves := saves[id := save.(tail := save.tail + [Close, Rename])];
      return Ok(save.target);
    }

    method Abort(owner: nat, id: string)
      requires Kept(Model())
      modifies this`open, this`saves
      ensures Model() == Next(old(Model()), Event.Abort(owner, id)) && Kept(Model())
    {
      hide Kept;
      NextKeeps(Model(), Event.Abort(owner, id));
      if !(id in open && id in saves && saves[id].owner == owner) {
        return;
      }
      open := open - {id};
      Discard(id);
    }

    /** Waits for the steps queued so far, then closes and removes. */
    method Discard(id: string)
      requires id in saves
      modifies this`saves
      ensures saves == old(saves)[id := Queued(old(saves)[id], [CloseQuietly, Remove])]
    {
      var save := saves[id];
      saves := saves[id := save.(tail := save.tail + [CloseQuietly, Remove])];
    }

    /** Everything one owner still had open. */
    method AbortOwner(owner: nat)
      requires Kept(Model())
      modifies this`open, this`saves
      ensures Model() == Next(old(Model()), Event.AbortOwner(owner)) && Kept(Model())
    {
      hide Kept;
      NextKeeps(Model(), Event.AbortOwner(owner));
      var ids := set id | id in open && id in saves && saves[id].owner == owner;
      Forget(ids);
      DiscardAll(ids);
    }

    method Forget(ids: set<string>)
      modifies this`open
      ensures open == old(open) - ids
    {
      var left := ids;
      while left != {}
        invariant left <= ids && open == old(open) - (ids - left)
        decreases left
      {
        var id :| id in left;
        open := open - {id};
        left := left - {id};
      }
    }

    method DiscardAll(ids: set<string>)
      requires ids <= saves.Keys
      modifies this`saves
      ensures saves == map id | id in old(saves) ::
                (if id in ids then Queued(old(saves)[id], [CloseQuietly, Remove]) else old(saves)[id])
    {
      hide Queued;
      var left := ids;
      while left != {}
        invariant left <= ids && saves.Keys == old(saves).Keys
        invariant forall id :: id in saves ==>
                    saves[id] == if id in ids && id !in left then Queued(old(saves)[id], [CloseQuietly, Remove])
                                 else old(saves)[id]
        decreases left
      {
        var id :| id in left;
        Discard(id);
        left := left - {id};
      }
    }

    /** The next queued step of a save runs. */
    method Advance(id: string, outcome: Outcome)
      requires Kept(Model())
      modifies this`saves, this`disk, this`overwritten
      ensures Model() == Next(old(Model()), Event.Advance(id, outcome)) && Kept(Model())
    {
      hide Kept, Partial;
      NextKeeps(Model(), Event.Advance(id, outcome));
      if id !in saves || saves[id].tail == [] {
        return;
      }
      var save := saves[id];
      var partial := Partial(save.target, id);
      match save.tail[0] {
        case Write(bytes) =>
          var wrote := WrittenPart(bytes, outcome);
          disk := Appended(disk, save.file, wrote);
          var progress := save.progress.(whole := save.progress.whole && wrote == bytes);
          saves := saves[id := save.(tail := save.tail[1..], progress := progress)];
        case Close =>
          saves := saves[id := save.(tail := if outcome.succeeds then save.tail[1..] else [Remove])];
        case Rename =>
          if outcome.succeeds && partial in disk.names {
            disk := disk.(names := disk.names[save.target := disk.names[partial]] - {partial});
            saves := saves[id := Settled(save, Renamed)];
            overwritten := overwritten + {save.target};
          } else {
            saves := saves[id := save.(tail := [Remove])];
          }
        case CloseQuietly =>
          saves := saves[id := save.(tail := save.tail[1..])];
        case Remove =>
          disk := disk.(names := disk.names - {partial});
          saves := saves[id := Settled(save, Removed)];
      }
    }
  }
}
