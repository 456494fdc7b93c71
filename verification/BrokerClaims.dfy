/**
 Who is announced under a key changes in two ways only: a socket proves the key, or the
 socket that holds it goes.
 */
module BrokerClaims {
  import opened Options
  import opened RateLimit
  import opened BrokerModel
  import opened BrokerTables
  import opened BrokerEffects

  /** `peer` answers its challenge with a signature that verifies for `key`, within the key's announce budget. */
  predicate Proves(c: Config, s: State, t: Timed, peer: nat, key: Key) {
    && Reads(c, s, t, peer) && t.step.message.frame.value.Prove?
    && var view := s.net.all[peer];
       && view.phase == Challenged && view.role.Some? && view.publicKey == Some(key) && view.nonce.Some?
       && c.verify(key, Claim(view.name, view.role.value, key, view.nonce.value), t.step.message.frame.value.signature)
       && Wait(c.limits.announcements, GrantsOf(s.spent.announcements, key), t.at) == 0
  }

  /** The peer is announced under the key, at the cost of one announcement; an earlier holder is closed. */
  ghost predicate TakesOver(s: State, after: State, peer: nat, key: Key, now: int) {
    && after.spent.announcements == Granted(s.spent.announcements, key, now)
    && after.net.announced == s.net.announced[key := peer]
    && peer < |after.net.all| && after.net.all[peer].phase == Ready
    && (key in s.net.announced ==>
          s.net.announced[key] < |after.net.all| && after.net.all[s.net.announced[key]].phase == Closed)
  }

  /** The prover of this step, if its message proves a key. */
  ghost predicate IsProof(c: Config, s: State, t: Timed) {
    && t.step.Message? && t.step.peer < |s.net.all| && s.net.all[t.step.peer].publicKey.Some?
    && Proves(c, s, t, t.step.peer, s.net.all[t.step.peer].publicKey.value)
  }

  /** A proof takes its key over; nothing else announces a key or spends an announcement. */
  ghost predicate Settled(c: Config, s: State, t: Timed, after: State) {
    if IsProof(c, s, t) then
      TakesOver(s, after, t.step.peer, s.net.all[t.step.peer].publicKey.value, t.at)
    else
      after.spent.announcements == s.spent.announcements && OnlyLeaves(s.net, after.net, t.step)
  }

  /** Steps in which the socket of `peer` may go: its own message, its own end, a sweep, or the broker going away. */
  predicate MayEnd(step: Step, peer: nat) {
    || (step.Message? && step.peer == peer)
    || step == SocketGone(peer) || step.Sweep? || step.GoAway?
  }

  /** Nobody new is announced, and who is no longer announced went in a step of its own. */
  ghost predicate OnlyLeaves(n: Net, after: Net, step: Step) {
    && |n.all| <= |after.all|
    && (forall key :: key in after.announced ==> key in n.announced && after.announced[key] == n.announced[key])
    && (forall key :: key in n.announced && key !in after.announced ==>
          && n.announced[key] < |n.all|
          && after.all[n.announced[key]].phase == Closed
          && MayEnd(step, n.announced[key]))
  }

  ghost predicate ClosedStay(n: Net, after: Net) {
    && |n.all| == |after.all|
    && forall peer: nat :: peer < |n.all| && n.all[peer].phase == Closed ==> after.all[peer].phase == Closed
  }

  lemma LeavesTwice(n: Net, mid: Net, after: Net, step: Step)
    requires OnlyLeaves(n, mid, step) && OnlyLeaves(mid, after, step) && ClosedStay(n, mid) && ClosedStay(mid, after)
    ensures OnlyLeaves(n, after, step) && ClosedStay(n, after)
  {
    forall key | key in n.announced && key !in after.announced
      ensures n.announced[key] < |n.all| && after.all[n.announced[key]].phase == Closed
      ensures MayEnd(step, n.announced[key])
    {
      if key in mid.announced {
        assert mid.announced[key] == n.announced[key];
      }
    }
  }

  lemma GoneOnlyLeaves(n: Net, peer: nat, step: Step)
    requires Tables(n) && peer < |n.all| && MayEnd(step, peer)
    ensures OnlyLeaves(n, Gone(n, peer), step) && ClosedStay(n, Gone(n, peer))
  {
    GoneFrame(n, peer);
  }

  lemma SweepPeerOnlyLeaves(c: Config, s: State, peer: nat, now: int)
    requires Tables(s.net) && peer < |s.net.all|
    ensures OnlyLeaves(s.net, SweepPeer(c, s, peer, now).net, Sweep)
    ensures ClosedStay(s.net, SweepPeer(c, s, peer, now).net)
  {
    GoneOnlyLeaves(s.net, peer, Sweep);
  }

  lemma {:induction false} SweepOnlyLeaves(c: Config, s: State, peers: seq<nat>, now: int)
    requires Tables(s.net) && InRange(s.net, peers)
    ensures OnlyLeaves(s.net, SweepAll(c, s, peers, now).net, Sweep)
    ensures ClosedStay(s.net, SweepAll(c, s, peers, now).net)
    ensures SweepAll(c, s, peers, now).spent == s.spent
  {
    if peers != [] {
      var n := |peers| - 1;
      var mid := SweepAll(c, s, peers[..n], now);
      SweepOnlyLeaves(c, s, peers[..n], now);
      SweepAllKeeps(c, s, peers[..n], now);
      SweepPeerOnlyLeaves(c, mid, peers[n], now);
      LeavesTwice(s.net, mid.net, SweepAll(c, s, peers, now).net, Sweep);
    }
  }

  lemma {:induction false} CloseAllOnlyLeaves(s: State, peers: seq<nat>, now: int)
    requires Tables(s.net) && InRange(s.net, peers)
    ensures OnlyLeaves(s.net, CloseAll(s, peers, now).net, GoAway)
    ensures ClosedStay(s.net, CloseAll(s, peers, now).net)
    ensures CloseAll(s, peers, now).spent == s.spent
  {
    if peers != [] {
      var n := |peers| - 1;
      var mid := CloseAll(s, peers[..n], now);
      CloseAllOnlyLeaves(s, peers[..n], now);
      CloseAllKeeps(s, peers[..n], now);
      GoneOnlyLeaves(mid.net, peers[n], GoAway);
      LeavesTwice(s.net, mid.net, CloseAll(s, peers, now).net, GoAway);
    }
  }

  lemma RefuseOnlyLeaves(s: State, peer: nat, now: int, step: Step)
    requires Tables(s.net) && peer < |s.net.all| && MayEnd(step, peer)
    ensures OnlyLeaves(s.net, RefuseFrame(s, peer, now).net, step)
    ensures RefuseFrame(s, peer, now).spent == s.spent
  {
    GoneOnlyLeaves(s.net, peer, step);
  }

  // ---------------------------------------------------------------------------------------------
  // Proving

  lemma FailedProof(c: Config, s: State, peer: nat, signature: string, now: int, step: Step)
    requires s.Wf() && Tables(s.net) && peer < |s.net.all| && MayEnd(step, peer)
    requires var view := s.net.all[peer];
             view.phase == Challenged && view.nonce.Some? ==>
               || !c.verify(view.publicKey.value,
                    Claim(view.name, view.role.value, view.publicKey.value, view.nonce.value), signature)
               || Wait(c.limits.announcements, GrantsOf(s.spent.announcements, view.publicKey.value), now) > 0
    ensures OnlyLeaves(s.net, OnProve(c, s, peer, signature, now).net, step)
    ensures OnProve(c, s, peer, signature, now).spent == s.spent
  {
    var view := s.net.all[peer];
    if view.phase != Challenged || view.nonce.None? {
      RefuseOnlyLeaves(s, peer, now, step);
    } else {
      SetKeeps(s.net, peer, view.(nonce := None));
      GoneOnlyLeaves(s.net.Set(peer, view.(nonce := None)), peer, step);
    }
  }

  lemma PassedProof(c: Config, s: State, peer: nat, key: Key, signature: string, now: int)
    requires s.Wf() && Tables(s.net) && peer < |s.net.all|
    requires var view := s.net.all[peer];
             && view.phase == Challenged && view.publicKey == Some(key) && view.role.Some? && view.nonce.Some?
             && c.verify(key, Claim(view.name, view.role.value, key, view.nonce.value), signature)
             && Wait(c.limits.announcements, GrantsOf(s.spent.announcements, key), now) == 0
    ensures TakesOver(s, OnProve(c, s, peer, signature, now), peer, key, now)
  {
    var view := s.net.all[peer];
    var claim := Claim(view.name, view.role.value, key, view.nonce.value);
    var checked := Show(SetPeer(s, peer, view.(nonce := None)), Checked(peer, claim, signature, true), now);
    SetKeeps(s.net, peer, view.(nonce := None));
    TakenOver(c, checked, peer, key, now);
  }

  lemma ReplacedLeaves(s: State, key: Key, now: int)
    requires Tables(s.net) && s.net.KnowsHolder(key)
    ensures var after := Replace(s, key, now);
            && after.spent == s.spent
            && after.net.announced - {key} == s.net.announced - {key}
            && (key in s.net.announced ==> after.net.all[s.net.announced[key]].phase == Closed)
  {
    hide Gone;
    if key in s.net.announced {
      GoneFrame(s.net, s.net.announced[key]);
    }
  }

  lemma TakenOver(c: Config, s: State, peer: nat, key: Key, now: int)
    requires Tables(s.net) && peer < |s.net.all|
    requires s.net.all[peer].phase == Challenged && s.net.KnowsHolder(key)
    requires Wait(c.limits.announcements, GrantsOf(s.spent.announcements, key), now) == 0
    ensures TakesOver(s, OnProven(c, s, peer, key, now), peer, key, now)
  {
    hide Replace;
    var counted := s.(spent := s.spent.(announcements := Granted(s.spent.announcements, key, now)));
    var replaced := Replace(counted, key, now);
    ReplacedLeaves(counted, key, now);
    assert OnProven(c, s, peer, key, now) == Announce(replaced, peer, key, now);
    assert replaced.net.announced[key := peer] == (replaced.net.announced - {key})[key := peer];
    assert s.net.announced[key := peer] == (s.net.announced - {key})[key := peer];
  }

  // ---------------------------------------------------------------------------------------------
  // Every step

  lemma UnprovenFrame(c: Config, s: State, peer: nat, frame: PeerFrame, nonce: string, now: int, step: Step)
    requires s.Wf() && Tables(s.net) && peer < |s.net.all| && MayEnd(step, peer) && !frame.Prove?
    ensures OnlyLeaves(s.net, OnFrame(c, s, peer, frame, nonce, now).net, step)
    ensures OnFrame(c, s, peer, frame, nonce, now).spent.announcements == s.spent.announcements
  {
    RefuseOnlyLeaves(s, peer, now, step);
    match frame {
      case Hello(_, _) =>
      case Relay(id, to, envelope, signature) => UnprovenRelay(c, s, peer, id, to, envelope, signature, now);
      case Ice(id) => UnprovenIce(c, s, peer, id, now);
    }
  }

  lemma UnprovenRelay(c: Config, s: State, peer: nat, id: string, to: Key, envelope: string, signature: string,
          now: int)
    requires peer < |s.net.all| && s.net.KnowsHolder(to)
    ensures var after := OnRelay(c, s, peer, id, to, envelope, signature, now);
            && after.spent.announcements == s.spent.announcements
            && (after.net == s.net || after.net == RefuseFrame(s, peer, now).net)
  {
    if s.net.all[peer].phase == Ready && s.net.all[peer].publicKey.Some? {
      OnRelayNet(c, s, peer, id, to, envelope, signature, now);
    } else {
      assert OnRelay(c, s, peer, id, to, envelope, signature, now) == RefuseFrame(s, peer, now);
    }
  }

  lemma UnprovenIce(c: Config, s: State, peer: nat, id: string, now: int)
    requires peer < |s.net.all|
    ensures var after := OnIce(c, s, peer, id, now);
            && after.spent.announcements == s.spent.announcements
            && (after.net == s.net || after.net == RefuseFrame(s, peer, now).net)
  {
  }

  /** Who is announced changes when a socket proves a key or goes; only a proof spends the key's announce budget. */
  lemma AnnouncedChanges(c: Config, s: State, t: Timed)
    requires s.Wf() && Tables(s.net)
    ensures Settled(c, s, t, Do(c, s, t))
  {
    if Enabled(s, t.step) {
      match t.step {
        case SocketGone(peer) => GoneOnlyLeaves(s.net, peer, t.step);
        case Sweep => SweepOnlyLeaves(c, s, s.net.live, t.at);
        case GoAway => CloseAllOnlyLeaves(s, s.net.live, t.at);
        case Message(_, _, _) => MessageSettles(c, s, t);
        case IceAnswer(_, _) => IceAnswerReachesTheReady(c, s, t);
        case _ =>
      }
    }
  }

  lemma MessageSettles(c: Config, s: State, t: Timed)
    requires s.Wf() && Tables(s.net) && t.step.Message? && t.step.peer < |s.net.all|
    ensures Settled(c, s, t, Do(c, s, t))
  {
    hide Do, Settled, OnFrame;
    var peer := t.step.peer;
    HeardKeeps(s.net, peer, t.at);
    CountedFrame(s, peer, t.at);
    if Reads(c, s, t, peer) {
      ReadIs(c, s, t);
      ReadSettles(c, s, Counted(s, peer, t.at), t, peer, t.step.message.frame.value, t.step.nonce);
    } else {
      UnreadSettles(c, s, t);
    }
  }

  lemma ReadSettles(c: Config, s: State, counted: State, t: Timed, peer: nat, frame: PeerFrame, nonce: string)
    requires s.Wf() && Tables(s.net) && Reads(c, s, t, peer)
    requires counted.Wf() && Tables(counted.net) && frame == t.step.message.frame.value
    requires counted.net == s.net.Set(peer, s.net.all[peer].(lastHeardAt := t.at))
    requires counted.spent.announcements == s.spent.announcements
    ensures Settled(c, s, t, OnFrame(c, counted, peer, frame, nonce, t.at))
  {
    if frame.Prove? {
      assert OnFrame(c, counted, peer, frame, nonce, t.at) == OnProve(c, counted, peer, frame.signature, t.at);
      if IsProof(c, s, t) {
        PassedProof(c, counted, peer, s.net.all[peer].publicKey.value, frame.signature, t.at);
      } else {
        FailedProof(c, counted, peer, frame.signature, t.at, t.step);
      }
    } else {
      UnprovenFrame(c, counted, peer, frame, nonce, t.at, t.step);
    }
  }

  lemma NoneLeaves(n: Net, step: Step)
    ensures OnlyLeaves(n, n, step)
  {
  }

  lemma SameAnnounced(n: Net, heard: Net, after: Net, step: Step)
    requires n.announced == heard.announced && |n.all| == |heard.all|
    ensures OnlyLeaves(heard, after, step) ==> OnlyLeaves(n, after, step)
  {
  }

  lemma UnreadSettles(c: Config, s: State, t: Timed)
    requires s.Wf() && Tables(s.net) && t.step.Message? && t.step.peer < |s.net.all|
    requires !Reads(c, s, t, t.step.peer)
    ensures Settled(c, s, t, Do(c, s, t))
  {
    hide Do, OnlyLeaves, RefuseFrame, Gone;
    var peer := t.step.peer;
    var heard := OnHeard(s, peer, t.at).net;
    UnreadIs(c, s, t);
    HeardKeeps(s.net, peer, t.at);
    CountedFrame(s, peer, t.at);
    NoneLeaves(s.net, t.step);
    NoneLeaves(heard, t.step);
    GoneOnlyLeaves(heard, peer, t.step);
    RefuseOnlyLeaves(Counted(s, peer, t.at), peer, t.at, t.step);
    SameAnnounced(s.net, heard, Do(c, s, t).net, t.step);
  }

  /** A claim that fails its check or announces too often changes no entry and spends no budget. */
  lemma FailedClaimChangesNothing(c: Config, s: State, t: Timed)
    requires s.Wf() && Tables(s.net) && t.step.Message? && t.step.peer < |s.net.all|
    requires s.net.all[t.step.peer].phase != Ready && !IsProof(c, s, t)
    ensures Do(c, s, t).net.announced == s.net.announced
    ensures Do(c, s, t).spent.announcements == s.spent.announcements
  {
    AnnouncedChanges(c, s, t);
    assert forall key :: key in s.net.announced ==> key in Do(c, s, t).net.announced;
  }
}
