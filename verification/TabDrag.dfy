/**
 A tab dragged between windows: which window holds it, which windows are told, and what is left
 when the pointer lets go. Windows are numbers; one may be destroyed at any time, and a drag says
 whether a call on a window that is gone throws.
 */
module TabDrag {
  import opened Options

  datatype Point = Point(x: real, y: real)

  datatype Strip = Strip(x: real, y: real, height: real)

  datatype Told = Take(window: nat) | Over(window: nat) | Release(window: nat)

  // ---------------------------------------------------------------------------------------------
  // What the windows are told during a drag

  /** The window that shows the tab after these messages; none of them comes to a window out of turn. */
  function Shows(told: seq<Told>): Option<Option<nat>> {
    if told == [] then Some(None)
    else
      match Shows(told[..|told| - 1])
      case None => None
      case Some(shown) =>
        match told[|told| - 1]
        case Take(window) => if shown == None then Some(Some(window)) else None
        case Over(window) => if shown == Some(window) then Some(shown) else None
        case Release(window) => if shown == Some(window) then Some(None) else None
  }

  lemma ShowsMore(told: seq<Told>, message: Told)
    ensures Shows(told + [message]) ==
              match Shows(told)
              case None => None
              case Some(shown) =>
                match message
                case Take(window) => if shown == None then Some(Some(window)) else None
                case Over(window) => if shown == Some(window) then Some(shown) else None
                case Release(window) => if shown == Some(window) then Some(None) else None
  {
    assert (told + [message])[..|told|] == told;
  }

  ghost predicate Between(told: seq<Told>, message: Told, i: int, j: int) {
    exists k :: 0 <= i < k < j <= |told| && told[k] == message
  }

  /**
   Taking and releasing alternate for every window, beginning with taking, and it is told of the
   pointer only in between.
   */
  ghost predicate Alternates(told: seq<Told>, window: nat) {
    && (forall i, j :: 0 <= i < j < |told| && told[i] == Take(window) && told[j] == Take(window) ==>
          Between(told, Release(window), i, j))
    && (forall j :: 0 <= j < |told| && told[j] == Release(window) ==> TakenAt(told, window, j))
    && (forall j :: 0 <= j < |told| && told[j] == Over(window) ==> TakenAt(told, window, j))
  }

  /** The window took the tab before message `j` and did not release it since. */
  ghost predicate TakenAt(told: seq<Told>, window: nat, j: nat)
    requires j <= |told|
  {
    exists i :: TakenSince(told, window, i, j)
  }

  ghost predicate TakenSince(told: seq<Told>, window: nat, i: int, j: nat)
    requires j <= |told|
  {
    0 <= i < j && told[i] == Take(window) && forall k :: i < k < j ==> told[k] != Release(window)
  }

  lemma {:induction false} MessagesAlternate(told: seq<Told>, window: nat)
    requires Shows(told).Some?
    ensures Alternates(told, window)
    ensures Shows(told).value == Some(window) <==> TakenAt(told, window, |told|)
  {
    if told != [] {
      var n := |told| - 1;
      assert told[..n] + [told[n]] == told;
      MessagesAlternate(told[..n], window);
      OneMoreAlternates(told[..n], told[n], window);
    }
  }

  lemma OneMoreAlternates(told: seq<Told>, message: Told, window: nat)
    requires Shows(told).Some? && Shows(told + [message]).Some? && Alternates(told, window)
    requires Shows(told).value == Some(window) <==> TakenAt(told, window, |told|)
    ensures Alternates(told + [message], window)
    ensures Shows(told + [message]).value == Some(window) <==> TakenAt(told + [message], window, |told| + 1)
  {
    ShowsMore(told, message);
    hide Shows, TakenAt;
    var more, n := told + [message], |told|;
    TakenNext(told, message, window);
    forall j: nat | j <= n ensures TakenAt(more, window, j) <==> TakenAt(told, window, j) {
      SameTaken(told, more, window, j);
    }
    forall i, j | 0 <= i < j < n + 1 && more[i] == Take(window) && more[j] == Take(window)
      ensures Between(more, Release(window), i, j)
    {
      if j < n {
        assert told[i] == Take(window) && told[j] == Take(window);
        var k :| i < k < j && told[k] == Release(window);
        assert more[k] == Release(window);
      } else {
        ReleasedSince(told, window, i);
        var k :| i < k < n && told[k] == Release(window);
        assert more[k] == Release(window);
      }
    }
  }

  lemma ReleasedSince(told: seq<Told>, window: nat, i: nat)
    requires i < |told| && told[i] == Take(window) && !TakenAt(told, window, |told|)
    ensures exists k :: i < k < |told| && told[k] == Release(window)
  {
    assert !TakenSince(told, window, i, |told|);
  }

  lemma TakenNext(told: seq<Told>, message: Told, window: nat)
    ensures TakenAt(told + [message], window, |told| + 1)
       <==> message == Take(window) || (message != Release(window) && TakenAt(told, window, |told|))
  {
    var more, n := told + [message], |told|;
    SameTaken(told, more, window, n);
    assert more[n] == message;
    if message == Take(window) {
      assert TakenSince(more, window, n, n + 1);
    } else {
      if TakenAt(more, window, n + 1) {
        var i :| TakenSince(more, window, i, n + 1);
        assert TakenSince(more, window, i, n);
      }
      if message != Release(window) && TakenAt(more, window, n) {
        var i :| TakenSince(more, window, i, n);
        assert TakenSince(more, window, i, n + 1);
      }
    }
  }

  lemma SameTaken(told: seq<Told>, more: seq<Told>, window: nat, j: nat)
    requires j <= |told| <= |more| && more[..|told|] == told
    ensures TakenAt(more, window, j) <==> TakenAt(told, window, j)
  {
    assert forall k :: 0 <= k < |told| ==> more[k] == told[k];
    if TakenAt(told, window, j) {
      var i :| TakenSince(told, window, i, j);
      assert TakenSince(more, window, i, j);
    }
    if TakenAt(more, window, j) {
      var i :| TakenSince(more, window, i, j);
      assert TakenSince(told, window, i, j);
    }
  }

  // ---------------------------------------------------------------------------------------------
  // The drag

  datatype Drag = Drag(number: nat, key: string, dragged: nat, grab: Point, halfTab: Option<real>, docked: Option<nat>,
      whole: bool)

  /**
   What a beat finds: the pointer, the window under it and where along its strip, and the dragged
   window's own strip.
   */
  datatype Beat = Beat(point: Point, target: Option<nat>, x: Option<real>, strip: Option<Strip>, transfers: bool)

  function Upto(n: nat): seq<nat> {
    seq(n, i => i)
  }

  /** The nearest whole number, a half rounded up. */
  function Round(x: real): int {
    (x + 0.5).Floor
  }

  class TabDrag {
    // Whether a call on a destroyed window throws, as it does with windows of Electron.
    const strict: bool
    var drag: Option<Drag>
    // The windows: which hold a tab, which are gone, which are invisible, where they were put, which was focused last.
    var holder: map<string, nat>
    var destroyed: set<nat>
    var invisible: set<nat>
    var position: map<nat, (int, int)>
    var focused: Option<nat>
    // The beats and listeners that run, by the number of their drag.
    var started: nat
    var ticking: set<nat>
    var listening: set<nat>
    // The stops so far, the messages of the current drag, those to a window that is gone included, and whether its
    // tab was with the dragged window at the start or moved since.
    ghost var stops: seq<nat>
    ghost var told: seq<Told>
    ghost var had: bool
    // Where along its strip the docked window was told the pointer is, last.
    ghost var pointed: Option<real>
    // The windows left invisible by a call that threw, how often one did, and whether in every state so far a window
    // was invisible exactly while its tab was docked.
    ghost var stuck: set<nat>
    ghost var throws: nat
    ghost var faithful: bool

    /** Of the windows that live, the dragged one is invisible while its tab is docked, and no other. */
    ghost predicate ShownAsDocked()
      reads this`drag, this`destroyed, this`invisible
    {
      forall window :: window !in destroyed ==>
        (window in invisible <==> drag.Some? && drag.value.docked.Some? && window == drag.value.dragged)
    }

    /** Beats and listeners are those of the drag there is, and the messages are in turn. */
    ghost predicate Runs()
      reads this`drag, this`holder, this`started, this`ticking, this`listening, this`stops, this`told, this`had
    {
      && stops == Upto(if drag.Some? && started > 0 then started - 1 else started)
      && ticking == (if drag.Some? then {drag.value.number} else {})
      && listening == (if drag.Some? && !drag.value.whole then {drag.value.number} else {})
      && Shows(told).Some?
      && (drag.Some? ==> Moves(drag.value))
    }

    /** Of the windows that live, those left invisible by a throw and the dragged one of a docked tab are invisible. */
    ghost predicate Looks()
      reads this`drag, this`destroyed, this`invisible, this`stuck, this`throws
    {
      && (forall window :: window !in destroyed ==>
           (window in invisible <==>
             window in stuck || (drag.Some? && drag.value.docked.Some? && window == drag.value.dragged)))
      && (drag.Some? && drag.value.docked.Some? ==> drag.value.dragged !in stuck)
      && (throws == 0 ==> stuck == {}) && (!strict ==> throws == 0)
    }

    ghost predicate Consistent()
      reads this`drag, this`holder, this`destroyed, this`invisible, this`started, this`ticking, this`listening
      reads this`stops, this`told, this`had, this`stuck, this`throws
    {
      Runs() && Looks()
    }

    ghost predicate Valid()
      reads this`drag, this`holder, this`destroyed, this`invisible, this`started, this`ticking, this`listening
      reads this`stops, this`told, this`had, this`stuck, this`throws, this`faithful
    {
      Consistent() && (faithful <==> throws == 0)
    }

    /** The tab is with the window it is docked in, and otherwise with the dragged one. */
    ghost predicate Moves(current: Drag)
      reads this`holder, this`told, this`had, this`started
    {
      && current.number + 1 == started
      && Shows(told) == Some(current.docked)
      && current.docked != Some(current.dragged)
      && (current.docked.Some? ==> had)
      && (had ==> current.key in holder
                  && holder[current.key] == if current.docked.Some? then current.docked.value else current.dragged)
    }

    constructor (holder: map<string, nat>, strict: bool)
      ensures Valid() && drag == None && this.holder == holder && destroyed == {} && started == 0
      ensures this.strict == strict && throws == 0
    {
      this.strict := strict;
      drag, this.holder, destroyed, invisible, position, focused := None, holder, {}, {}, map[], None;
      started, ticking, listening := 0, {}, {};
      stops, told, had, pointed := [], [], false, None;
      stuck, throws, faithful := {}, 0, true;
    }

    /** A state is looked at. */
    ghost method Watch()
      requires Consistent()
      modifies this`faithful
      ensures faithful == (old(faithful) && ShownAsDocked())
      ensures ShownAsDocked() <==> stuck <= destroyed
      ensures throws == 0 ==> stuck == {}
    {
      faithful := faithful && ShownAsDocked();
    }

    method Dock(target: nat, transfers: bool, x: real)
      requires Consistent() && drag.Some? && drag.value.docked.None? && target != drag.value.dragged
      modifies this`drag, this`holder, this`invisible, this`told, this`had, this`stuck, this`pointed
      ensures Consistent() && drag.Some? && (transfers ==> pointed == Some(x))
      ensures drag == Some(if transfers then old(drag.value).(docked := Some(target)) else old(drag.value))
      ensures if transfers then told == old(told) + [Take(target)] && holder == old(holder)[drag.value.key := target]
              else told == old(told) && holder == old(holder)
    {
      if !transfers {
        return;
      }
      hide Runs, Moves;
      Enter(target);
      invisible := invisible + {drag.value.dragged};
      stuck, pointed := stuck - {drag.value.dragged}, Some(x);
    }

    /** The tab goes to the target, which is told to take it. */
    method Enter(target: nat)
      requires Runs() && drag.Some? && drag.value.docked.None? && target != drag.value.dragged
      modifies this`drag, this`holder, this`told, this`had
      ensures Runs() && drag == Some(old(drag.value).(docked := Some(target)))
      ensures told == old(told) + [Take(target)] && holder == old(holder)[drag.value.key := target]
    {
      hide Shows, Upto;
      ShowsMore(told, Take(target));
      var current := drag.value;
      holder := holder[current.key := target];
      drag := Some(current.(docked := Some(target)));
      told, had := told + [Take(target)], true;
    }

    /** The tab goes back to the dragged window, and the window it was in is told to release it. */
    method Leave()
      requires Runs() && drag.Some? && drag.value.docked.Some?
      modifies this`drag, this`holder, this`told
      ensures Runs() && drag == Some(old(drag.value).(docked := None))
      ensures told == old(told) + [Release(old(drag.value.docked.value))]
      ensures holder == old(holder)[drag.value.key := drag.value.dragged]
    {
      hide Shows, Upto;
      ShowsMore(told, Release(drag.value.docked.value));
      var current := drag.value;
      drag := Some(current.(docked := None));
      holder := holder[current.key := current.dragged];
      told := told + [Release(current.docked.value)];
    }

    /**
     The transfer back to a window that lives succeeds. Telling a docked window that is gone may
     throw, and then the dragged window is not made visible again.
     */
    method Undock() returns (threw: bool)
      requires Consistent() && drag.Some? && drag.value.docked.Some? && drag.value.dragged !in destroyed
      modifies this`drag, this`holder, this`invisible, this`told, this`stuck, this`throws
      ensures Consistent() && drag == Some(old(drag.value).(docked := None))
      ensures told == old(told) + [Release(old(drag.value.docked.value))]
      ensures holder == old(holder)[drag.value.key := drag.value.dragged]
      ensures threw == (strict && old(drag.value.docked.value) in destroyed)
      ensures threw <==> drag.value.dragged in stuck && drag.value.dragged in invisible
      ensures throws == old(throws) + if threw then 1 else 0
    {
      hide Runs, Moves;
      var docked := drag.value.docked.value;
      Leave();
      if strict && docked in destroyed {
        stuck, throws := stuck + {drag.value.dragged}, throws + 1;
        return true;
      }
      invisible := invisible - {drag.value.dragged};
      return false;
    }

    /** The middle of the tab comes under the pointer as soon as the strip is known. */
    method Aim(strip: Option<Strip>)
      requires Consistent() && drag.Some?
      modifies this`drag
      ensures Consistent() && drag.Some? && drag == Some(old(drag.value).(grab := drag.value.grab))
      ensures strip.None? || old(drag.value.halfTab).None? ==> drag == old(drag)
      ensures strip.Some? && old(drag.value.halfTab).Some? ==>
                drag.value.grab
                == Point(strip.value.x + old(drag.value.halfTab).value, strip.value.y + strip.value.height / 2.0)
    {
      hide Shows, Upto;
      var current := drag.value;
      if current.halfTab.Some? && strip.Some? {
        var middle := Point(strip.value.x + current.halfTab.value, strip.value.y + strip.value.height / 2.0);
        drag := Some(current.(grab := middle));
      }
    }

    /** The window the tab is docked in hears where the pointer is. */
    ghost method Pass(x: real)
      requires Consistent() && drag.Some? && drag.value.docked.Some?
      modifies this`told, this`pointed
      ensures Consistent() && told == old(told) + [Over(drag.value.docked.value)] && pointed == Some(x)
    {
      pointed := Some(x);
      ShowsMore(told, Over(drag.value.docked.value));
      told := told + [Over(drag.value.docked.value)];
    }

    /** The pointer left the strip the tab is docked in, or that window is gone. */
    predicate Left(docked: Option<nat>, beat: Beat)
      reads this`destroyed
    {
      docked.Some? && (docked.value in destroyed || beat.target != docked || beat.x.None?)
    }

    /** What a beat tells the windows when the tab was docked there before it. */
    function Telling(docked: Option<nat>, beat: Beat): seq<Told>
      reads this`destroyed
    {
      var over := beat.target.Some? && beat.x.Some?;
      if docked.Some? && !Left(docked, beat) then [Over(docked.value)]
      else
        (if docked.Some? then [Release(docked.value)] else [])
        + if docked.Some? && strict && docked.value in destroyed then []
          else if over && beat.transfers then [Take(beat.target.value)]
          else []
    }

    /** The next beat of the drag throws: the window it is docked in is gone. */
    ghost predicate Breaks()
      reads this`drag, this`destroyed
    {
      && strict && drag.Some? && drag.value.docked.Some?
      && drag.value.dragged !in destroyed && drag.value.docked.value in destroyed
    }

    /**
     One beat: the tab docks, moves along or out, and an undocked window follows the pointer. Where
     it throws, the tab is out and back with the dragged window, which stays invisible where it was.
     */
    method Tick(beat: Beat) returns (threw: bool)
      requires Valid()
      requires drag.Some? ==> beat.target != Some(drag.value.dragged)
      requires beat.target.None? ==> beat.x.None?
      modifies this`drag, this`holder, this`invisible, this`position, this`told, this`had
      modifies this`stuck, this`throws, this`faithful, this`pointed
      ensures Valid() && (drag.Some? <==> old(drag).Some?) && old(told) <= told
      ensures threw == old(Breaks())
      ensures drag.Some? && drag.value.dragged !in destroyed && !threw ==>
                && Follows(old(drag.value), drag.value, beat)
                && (drag.value.docked.Some? ==> position == old(position))
      ensures drag.Some? && drag.value.dragged !in destroyed ==>
                told == old(told) + Telling(old(drag.value.docked), beat)
      ensures threw ==>
                && drag == Some(old(drag.value).(docked := None, grab := drag.value.grab))
                && drag.value.dragged in invisible && position == old(position)
                && holder == old(holder)[drag.value.key := drag.value.dragged]
      ensures drag.Some? && drag.value.dragged in destroyed ==>
                drag == old(drag) && told == old(told) && holder == old(holder) && position == old(position)
    {
      hide Consistent, Moves, Round, ShownAsDocked;
      if drag.None? || drag.value.dragged in destroyed {
        Watch();
        return false;
      }
      Aim(beat.strip);
      threw := Shift(beat);
      if !threw && drag.value.docked.None? {
        Place(beat.point);
      }
      Watch();
    }

    /** The tab leaves a strip the pointer left, and enters the one it is over. */
    method Shift(beat: Beat) returns (threw: bool)
      requires Consistent() && drag.Some? && drag.value.dragged !in destroyed
      requires beat.target != Some(drag.value.dragged) && (beat.target.None? ==> beat.x.None?)
      modifies this`drag, this`holder, this`invisible, this`told, this`had, this`stuck, this`throws, this`pointed
      ensures Consistent() && drag.Some? && drag == Some(old(drag.value).(docked := drag.value.docked))
      ensures !threw && drag.value.docked.Some? ==> pointed == beat.x
      ensures threw == old(Breaks()) && told == old(told) + Telling(old(drag.value.docked), beat)
      ensures throws == old(throws) + if threw then 1 else 0
      ensures !threw && drag.value.docked.Some? ==> beat.target == drag.value.docked && beat.x.Some?
      ensures !threw && beat.target.Some? && beat.x.Some? && beat.transfers ==> drag.value.docked == beat.target
      ensures threw ==>
                && drag.value.docked.None? && drag.value.dragged in stuck && drag.value.dragged in invisible
                && holder == old(holder)[drag.value.key := drag.value.dragged]
    {
      hide Consistent, Moves;
      var docked := drag.value.docked;
      if Left(docked, beat) {
        threw := Undock();
        if threw {
          return true;
        }
      }
      if drag.value.docked.None? && beat.target.Some? && beat.x.Some? {
        Dock(beat.target.value, beat.transfers, beat.x.value);
      } else if drag.value.docked.Some? && beat.x.Some? {
        Pass(beat.x.value);
      }
      return false;
    }

    method Place(point: Point)
      requires drag.Some?
      modifies this`position
      ensures position == old(position)[drag.value.dragged :=
                (Round(point.x - drag.value.grab.x), Round(point.y - drag.value.grab.y))]
    {
      var grab := drag.value.grab;
      position := position[drag.value.dragged := (Round(point.x - grab.x), Round(point.y - grab.y))];
    }

    /**
     After a beat the tab is docked where the pointer is over a strip, and otherwise its window is
     under the pointer.
     */
    ghost predicate Follows(before: Drag, after: Drag, beat: Beat)
      reads this`position, this`destroyed, this`pointed
    {
      && after == before.(grab := after.grab, docked := after.docked)
      && (after.docked.Some? ==> beat.target == after.docked && beat.x.Some? && pointed == beat.x)
      && (beat.target.Some? && beat.x.Some? && beat.transfers ==> after.docked == beat.target)
      && (after.docked.None? ==> after.dragged in position
                                 && position[after.dragged]
                                    == (Round(beat.point.x - after.grab.x), Round(beat.point.y - after.grab.y)))
    }

    /** The drag there is, is over: its beat and its listener stop. */
    method Stop()
      requires Runs() && drag.Some?
      modifies this`drag, this`ticking, this`listening, this`stops
      ensures Runs() && drag == None && stops == old(stops) + [old(drag.value.number)]
    {
      hide Shows;
      var number := drag.value.number;
      drag := None;
      ticking := ticking - {number};
      listening := listening - {number};
      stops := stops + [number];
    }

    /**
     Lets go: the drag is over and stopped, and the dragged window closes when its tab is docked,
     unless bringing the docked window to the front throws because that one is gone.
     */
    method End() returns (threw: bool)
      requires Valid()
      modifies this`drag, this`ticking, this`listening, this`stops, this`focused, this`destroyed
      modifies this`stuck, this`throws, this`faithful
      ensures Valid() && drag == None && threw == old(Breaks())
      ensures stops == old(stops) + if old(drag).Some? then [old(drag.value.number)] else []
      ensures destroyed == old(destroyed) + if old(Closes()) then {old(drag.value.dragged)} else {}
      ensures old(Closes()) ==>
                old(drag.value.key) in holder && holder[old(drag.value.key)] == old(drag.value.docked.value)
      ensures old(Closes()) ==>
                (holder[old(drag.value.key)] !in destroyed <==> old(drag.value.docked.value) !in old(destroyed))
      ensures old(drag).Some? && old(drag.value.dragged) !in old(destroyed) && !threw ==>
                focused == Some(if old(drag.value.docked).Some? then old(drag.value.docked.value)
                                else old(drag.value.dragged))
      ensures threw ==> focused == old(focused) && old(drag.value.dragged) in invisible
    {
      hide Consistent, ShownAsDocked;
      threw := Break();
      Watch();
    }

    method Break() returns (threw: bool)
      requires Consistent()
      modifies this`drag, this`ticking, this`listening, this`stops, this`focused, this`destroyed
      modifies this`stuck, this`throws
      ensures Consistent() && drag == None && threw == old(Breaks())
      ensures stops == old(stops) + if old(drag).Some? then [old(drag.value.number)] else []
      ensures destroyed == old(destroyed) + if old(Closes()) then {old(drag.value.dragged)} else {}
      ensures old(Closes()) ==>
                && old(drag.value.key) in holder && holder[old(drag.value.key)] == old(drag.value.docked.value)
                && old(drag.value.docked.value) != old(drag.value.dragged)
      ensures throws == old(throws) + if threw then 1 else 0
      ensures focused ==
                if old(drag).None? || old(drag.value.dragged) in old(destroyed) || threw then old(focused)
                else Some(if old(drag.value.docked).Some? then old(drag.value.docked.value)
                          else old(drag.value.dragged))
      ensures threw ==> old(drag.value.dragged) in stuck && old(drag.value.dragged) in invisible
    {
      hide Runs;
      if drag.None? {
        return false;
      }
      var current := drag.value;
      InPlace();
      Stop();
      if current.dragged in destroyed {
        return false;
      }
      if current.docked.None? {
        focused := Some(current.dragged);
        return false;
      }
      if strict && current.docked.value in destroyed {
        stuck, throws := stuck + {current.dragged}, throws + 1;
        return true;
      }
      focused := current.docked;
      destroyed := destroyed + {current.dragged};
      return false;
    }

    /** A docked tab is with the window it is docked in, and that is not the dragged one. */
    lemma InPlace()
      requires Runs() && drag.Some?
      ensures drag.value.docked.Some? ==>
                && drag.value.key in holder && holder[drag.value.key] == drag.value.docked.value
                && drag.value.docked != Some(drag.value.dragged)
    {
    }

    /** Letting go closes the dragged window. */
    ghost predicate Closes()
      reads this`drag, this`destroyed
    {
      drag.Some? && drag.value.docked.Some? && drag.value.dragged !in destroyed && !Breaks()
    }

    /**
     Ends the drag there is, and starts one, unless the end throws; `detached` is the window the tab
     tears off into, which then has it.
     */
    method Start(source: nat, key: string, grab: Point, whole: bool, tabWidth: Option<real>, detached: Option<nat>)
      returns (starts: bool, threw: bool)
      requires Valid()
      requires detached.Some? ==> detached.value !in destroyed && detached.value !in invisible
      modifies this
      ensures Valid() && threw == old(Breaks()) && starts == (!threw && (whole || detached.Some?)) == drag.Some?
      ensures starts ==>
                && told == [] && started == old(started) + 1
                && drag == Some(Drag(old(started), key, if whole then source else detached.value, grab,
                                     if whole || tabWidth.None? then None else Some(tabWidth.value / 2.0), None, whole))
      ensures destroyed == old(destroyed) + if old(Closes()) then {old(drag.value.dragged)} else {}
      ensures holder == if starts && !whole then old(holder)[key := detached.value] else old(holder)
      ensures starts && !whole ==> had
      ensures starts && whole ==> (had <==> key in holder && holder[key] == source)
    {
      hide Consistent, ShownAsDocked;
      threw := End();
      if threw || (!whole && detached.None?) {
        return false, threw;
      }
      var dragged := if whole then source else detached.value;
      var half := if whole || tabWidth.None? then None else Some(tabWidth.value / 2.0);
      Begin(Drag(started, key, dragged, grab, half, None, whole));
      Watch();
      return true, false;
    }

    method Begin(current: Drag)
      requires Consistent() && drag.None? && current.number == started && current.docked.None?
      modifies this`drag, this`holder, this`ticking, this`listening, this`started, this`told, this`had
      ensures Consistent() && drag == Some(current) && told == [] && started == old(started) + 1
      ensures holder == if current.whole then old(holder) else old(holder)[current.key := current.dragged]
      ensures had <==> current.key in holder && holder[current.key] == current.dragged
    {
      hide Runs, Moves;
      Launch(current);
    }

    method Launch(current: Drag)
      requires Runs() && drag.None? && current.number == started && current.docked.None?
      modifies this`drag, this`holder, this`ticking, this`listening, this`started, this`told, this`had
      ensures Runs() && drag == Some(current) && told == [] && started == old(started) + 1
      ensures holder == if current.whole then old(holder) else old(holder)[current.key := current.dragged]
      ensures had <==> current.key in holder && holder[current.key] == current.dragged
    {
      hide Upto;
      drag := Some(current);
      ticking := ticking + {current.number};
      if !current.whole {
        holder := holder[current.key := current.dragged];
        listening := listening + {current.number};
      }
      started := started + 1;
      told, had := [], current.key in holder && holder[current.key] == current.dragged;
    }

    /** The dragged window came to the front. */
    method Front(number: nat) returns (threw: bool)
      requires Valid() && number in listening
      modifies this`drag, this`ticking, this`listening, this`stops, this`focused, this`destroyed
      modifies this`stuck, this`throws, this`faithful
      ensures Valid() && drag == None && stops == old(stops) + [number] && threw == old(Breaks())
    {
      threw := End();
    }

    /** A window goes, for whatever reason. */
    method Destroy(window: nat)
      requires Valid()
      modifies this`destroyed, this`faithful
      ensures Valid() && destroyed == old(destroyed) + {window}
    {
      hide Moves;
      destroyed := destroyed + {window};
      Watch();
    }
  }

  /** Every window hears of the tab in turn, and the one it is docked in took it and did not release it since. */
  lemma WindowsHearInTurn(drag: TabDrag, window: nat)
    requires drag.Valid()
    ensures Alternates(drag.told, window)
    ensures drag.drag.Some? ==> (drag.drag.value.docked == Some(window) <==> TakenAt(drag.told, window, |drag.told|))
  {
    MessagesAlternate(drag.told, window);
  }

  /**
   In every state so far the dragged window was invisible exactly while its tab was docked, if and
   only if no call on a docked window threw; now it is so exactly when all windows left invisible
   are gone.
   */
  lemma InvisibleWhileDocked(drag: TabDrag)
    requires drag.Valid()
    ensures drag.faithful <==> drag.throws == 0
    ensures drag.ShownAsDocked() <==> drag.stuck <= drag.destroyed
    ensures !drag.strict ==> drag.ShownAsDocked()
  {
    if drag.ShownAsDocked() {
      forall window | window in drag.stuck ensures window in drag.destroyed {
      }
    }
  }

  /**
   In every state each drag so far was stopped exactly once, but for the current one, which was not
   stopped at all.
   */
  lemma EveryDragStopsOnce(drag: TabDrag)
    requires drag.Valid()
    ensures forall i, j :: 0 <= i < j < |drag.stops| ==> drag.stops[i] != drag.stops[j]
    ensures forall number: nat :: number < drag.started ==>
              (number in drag.stops <==> drag.drag.None? || number != drag.drag.value.number)
  {
    forall number: nat | number < drag.started
      ensures number in drag.stops <==> drag.drag.None? || number != drag.drag.value.number
    {
      if number < |drag.stops| {
        assert drag.stops[number] == number;
      }
    }
  }

  /**
   When the docked window goes before the next beat, letting go closes the other one too, or leaves
   it invisible and without the tab.
   */
  method DockedWindowGoes(strict: bool) returns (drag: TabDrag, threw: bool)
    ensures fresh(drag) && drag.Valid() && drag.strict == strict && drag.drag == None && threw == strict
    ensures "tab" in drag.holder && drag.holder["tab"] == 2
    ensures if strict then drag.destroyed == {2} && 1 in drag.invisible else drag.destroyed == {1, 2}
  {
    hide TabDrag.Runs, TabDrag.Looks, TabDrag.Telling, TabDrag.Left, Round;
    drag := new TabDrag(map["tab" := 1], strict);
    var starts, early := drag.Start(1, "tab", Point(0.0, 0.0), true, None, None);
    early := drag.Tick(Beat(Point(300.0, 20.0), Some(2), Some(200.0), None, true));
    drag.InPlace();
    drag.Destroy(2);
    threw := drag.End();
  }
}
