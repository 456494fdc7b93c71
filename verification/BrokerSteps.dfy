/**
 What each step of the broker does, written out in terms of the state before it: what the peers
 become, which budgets are spent and on whom, and what the outside sees, in order. Together with
 the agreement of the tables this leaves a step no choice.
 */
module BrokerSteps {
  import opened Options
  import opened RateLimit
  import opened BrokerModel
  import opened BrokerTables
  import opened BrokerEffects
  import opened BrokerClaims

  /** The view of a peer whose message came at `at`. */
  function HeardView(s: State, t: Timed): PeerView
    requires t.step.Message? && t.step.peer < |s.net.all|
  {
    s.net.all[t.step.peer].(lastHeardAt := t.at)
  }

  /** A take by one key, at the cost of nothing else. */
  function FramePaid(s: State, t: Timed): Spent
    requires t.step.Message? && t.step.peer < |s.net.all|
  {
    s.spent.(frames := Granted(s.spent.frames, s.net.all[t.step.peer].ip, t.at))
  }

  /** The peer has the view, but closed, and is announced no more; all others are as before. */
  ghost predicate Leaves(n: Net, after: Net, peer: nat, view: PeerView) {
    && peer < |n.all| && after.all == n.all[peer := view.(phase := Closed)]
    && (forall key :: key in after.announced <==> key in n.announced && n.announced[key] != peer)
    && (forall key :: key in after.announced ==> after.announced[key] == n.announced[key])
  }

  /** The sender hears `BadFrame`, and closes unless it is ready. */
  ghost predicate Refused(s: State, t: Timed, after: State)
    requires t.step.Message? && t.step.peer < |s.net.all|
  {
    var peer := t.step.peer;
    && after.spent == FramePaid(s, t) && after.suspended == s.suspended
    && if s.net.all[peer].phase == Ready then
         && after.net == s.net.(all := s.net.all[peer := HeardView(s, t)])
         && after.trace == s.trace + [Stamped(t.at, Sent(peer, Error(BadFrame, None)))]
       else
         && Leaves(s.net, after.net, peer, HeardView(s, t))
         && after.trace == s.trace + [Stamped(t.at, Sent(peer, Error(BadFrame, None))),
                                      Stamped(t.at, SocketClosed(peer, BadFrameClose))]
  }

  lemma GoneLeaves(n: Net, peer: nat, view: PeerView, before: Net)
    requires Tables(n) && peer < |n.all| && n.all[peer] == view && view.phase != Closed
    requires |before.all| == |n.all| && n.all == before.all[peer := view] && n.announced == before.announced
    ensures Leaves(before, Gone(n, peer), peer, view)
  {
    GoneFrame(n, peer);
    assert Gone(n, peer).all[peer] == view.(phase := Closed);
  }

  lemma RefuseOutcome(s: State, t: Timed)
    requires s.Wf() && Tables(s.net) && t.step.Message? && t.step.peer < |s.net.all|
    requires s.net.all[t.step.peer].phase != Closed
    ensures Refused(s, t, RefuseFrame(Counted(s, t.step.peer, t.at), t.step.peer, t.at))
  {
    hide Gone, Tables;
    var peer := t.step.peer;
    HeardKeeps(s.net, peer, t.at);
    CountedFrame(s, peer, t.at);
    GoneLeaves(Counted(s, peer, t.at).net, peer, HeardView(s, t), s.net);
  }

  // ---------------------------------------------------------------------------------------------
  // Messages that are not read

  /** Too large, too many or no frame at all: closed, told to wait, or refused. */
  lemma UnreadOutcome(c: Config, s: State, t: Timed)
    requires s.Wf() && Tables(s.net) && t.step.Message? && t.step.peer < |s.net.all|
    ensures var after, peer, message := Do(c, s, t), t.step.peer, t.step.message;
            var wait := Wait(c.limits.frames, GrantsOf(s.spent.frames, s.net.all[peer].ip), t.at);
            if s.net.all[peer].phase == Closed then after == s
            else if message.Text? && message.bytes > c.limits.maxMessageBytes then
              && Leaves(s.net, after.net, peer, HeardView(s, t))
              && after.spent == s.spent && after.suspended == s.suspended
              && after.trace == s.trace + [Stamped(t.at, SocketClosed(peer, TooLarge))]
            else if wait > 0 then
              && after.net == s.net.(all := s.net.all[peer := HeardView(s, t)])
              && after.spent == s.spent && after.suspended == s.suspended
              && after.trace == s.trace + [Stamped(t.at, Sent(peer, RateLimited(PerIp, wait, None)))]
            else (message.NotText? || message.frame.None?) ==> Refused(s, t, after)
  {
    hide Do, RefuseFrame, Gone, Tables;
    var peer := t.step.peer;
    HeardKeeps(s.net, peer, t.at);
    if !Reads(c, s, t, peer) {
      UnreadIs(c, s, t);
      if s.net.all[peer].phase != Closed {
        RefuseOutcome(s, t);
        GoneLeaves(OnHeard(s, peer, t.at).net, peer, HeardView(s, t), s.net);
      }
    }
  }

  // ---------------------------------------------------------------------------------------------
  // Frames that are read

  /**
   A hello of a new peer leaves it challenged with the role and key it said and the nonce of the
   challenge it is sent; any other peer is refused.
   */
  lemma HelloOutcome(c: Config, s: State, t: Timed)
    requires s.Wf() && Tables(s.net) && t.step.Message? && Reads(c, s, t, t.step.peer)
    requires t.step.message.frame.value.Hello?
    ensures var after, peer, frame := Do(c, s, t), t.step.peer, t.step.message.frame.value;
            if s.net.all[peer].phase == New then
              && after.net == s.net.(all := s.net.all[peer := HeardView(s, t).(
                   role := Some(frame.role), publicKey := Some(frame.publicKey),
                   nonce := Some(t.step.nonce), phase := Challenged)])
              && after.spent == FramePaid(s, t) && after.suspended == s.suspended
              && after.trace
                 == s.trace + [Stamped(t.at, Sent(peer, Challenge(s.net.all[peer].name, t.step.nonce)))]
            else Refused(s, t, after)
  {
    hide Do, RefuseFrame;
    ReadIs(c, s, t);
    CountedFrame(s, t.step.peer, t.at);
    RefuseOutcome(s, t);
  }

  /**
   A relay of a ready peer: without budget it waits, with budget it costs one take of its key, and
   then it is delivered and acknowledged, or nobody has that key in the opposite role.
   */
  lemma RelayOutcome(c: Config, s: State, t: Timed)
    requires s.Wf() && Tables(s.net) && t.step.Message? && Reads(c, s, t, t.step.peer)
    requires t.step.message.frame.value.Relay?
    ensures var after, peer, frame := Do(c, s, t), t.step.peer, t.step.message.frame.value;
            var view := s.net.all[peer];
            if view.phase != Ready then Refused(s, t, after)
            else
              && view.publicKey.Some?
              && var key := view.publicKey.value;
                 var wait := Wait(c.limits.relays, GrantsOf(s.spent.relays, key), t.at);
                 && after.net == s.net.(all := s.net.all[peer := HeardView(s, t)]) && after.suspended == s.suspended
                 && if wait > 0 then
                      && after.spent == FramePaid(s, t)
                      && after.trace == s.trace + [Stamped(t.at, Sent(peer, RateLimited(PerKey, wait, Some(frame.id))))]
                    else
                      && after.spent == FramePaid(s, t).(relays := Granted(s.spent.relays, key, t.at))
                      && if frame.to in s.net.announced && s.net.announced[frame.to] < |s.net.all|
                            && s.net.all[s.net.announced[frame.to]].role != view.role then
                           after.trace == s.trace + [
                             Stamped(t.at, Sent(s.net.announced[frame.to],
                                                Relayed(key, frame.envelope, frame.signature))),
                             Stamped(t.at, Sent(peer, Delivered(frame.id)))]
                         else
                           after.trace == s.trace + [Stamped(t.at, Sent(peer, Error(NotConnected, Some(frame.id))))]
  {
    hide Do, RefuseFrame;
    ReadIs(c, s, t);
    CountedFrame(s, t.step.peer, t.at);
    RefuseOutcome(s, t);
  }

  /**
   A question of a ready peer is asked exactly when its address, its key and all peers together have
   budget left; otherwise the first of them that has none says how long to wait, and those before it
   were spent.
   */
  lemma IceOutcome(c: Config, s: State, t: Timed)
    requires s.Wf() && Tables(s.net) && t.step.Message? && Reads(c, s, t, t.step.peer)
    requires t.step.message.frame.value.Ice?
    ensures var after, peer, id := Do(c, s, t), t.step.peer, t.step.message.frame.value.id;
            var view := s.net.all[peer];
            if view.phase != Ready then Refused(s, t, after)
            else
              && view.publicKey.Some? && view.role.Some?
              && var key := view.publicKey.value;
                 var waitIp := Wait(c.limits.icePerIp, GrantsOf(s.spent.icePerIp, view.ip), t.at);
                 var waitKey := Wait(c.limits.icePerKey, GrantsOf(s.spent.icePerKey, key), t.at);
                 var waitAll := Wait(c.limits.iceAll, GrantsOf(s.spent.iceAll, "all"), t.at);
                 var perIp := FramePaid(s, t).(icePerIp := Granted(s.spent.icePerIp, view.ip, t.at));
                 var perKey := perIp.(icePerKey := Granted(s.spent.icePerKey, key, t.at));
                 var perAll := perKey.(iceAll := Granted(s.spent.iceAll, "all", t.at));
                 && after.net == s.net.(all := s.net.all[peer := HeardView(s, t)])
                 && after.spent == (if waitIp > 0 then FramePaid(s, t)
                                    else if waitKey > 0 then perIp
                                    else if waitAll > 0 then perKey
                                    else perAll)
                 && after.suspended == (if waitIp == 0 && waitKey == 0 && waitAll == 0
                                        then s.suspended + [Suspended(peer, id)] else s.suspended)
                 && after.trace == s.trace + [Stamped(t.at,
                      if waitIp > 0 then Sent(peer, RateLimited(PerIp, waitIp, Some(id)))
                      else if waitKey > 0 then Sent(peer, RateLimited(PerKey, waitKey, Some(id)))
                      else if waitAll > 0 then Sent(peer, RateLimited(PerIp, waitAll, Some(id)))
                      else TurnAsked(peer, id, view.role.value, key))]
  {
    hide Do, RefuseFrame;
    ReadIs(c, s, t);
    CountedFrame(s, t.step.peer, t.at);
    RefuseOutcome(s, t);
  }

  /** What a challenged peer signs. */
  function ClaimOf(view: PeerView): Claim
    requires view.role.Some? && view.publicKey.Some? && view.nonce.Some?
  {
    Claim(view.name, view.role.value, view.publicKey.value, view.nonce.value)
  }

  /**
   An answer to a challenge is checked once, over the name, role, key and nonce of the peer, and the
   nonce is gone. A wrong one, and one too many for the key, close the socket. Any other makes the
   peer ready under its key, at the cost of one announcement, after the earlier socket of the key heard
   that it is replaced and closed.
   */
  lemma ProveOutcome(c: Config, s: State, t: Timed)
    requires s.Wf() && Tables(s.net) && t.step.Message? && Reads(c, s, t, t.step.peer)
    requires t.step.message.frame.value.Prove?
    ensures var after, peer, signature := Do(c, s, t), t.step.peer, t.step.message.frame.value.signature;
            var view, heard := s.net.all[peer], HeardView(s, t).(nonce := None);
            if view.phase != Challenged || view.nonce.None? then Refused(s, t, after)
            else
              && view.role.Some? && view.publicKey.Some? && after.suspended == s.suspended
              && var key, claim := view.publicKey.value, ClaimOf(view);
                 var wait := Wait(c.limits.announcements, GrantsOf(s.spent.announcements, key), t.at);
                 var passes := c.verify(key, claim, signature);
                 var checked := s.trace + [Stamped(t.at, Checked(peer, claim, signature, passes))];
                 if !passes then
                   && Leaves(s.net, after.net, peer, heard) && after.spent == FramePaid(s, t)
                   && after.trace == checked + [Stamped(t.at, Sent(peer, Error(BadSignature, None))),
                                                Stamped(t.at, SocketClosed(peer, BadSignatureClose))]
                 else if wait > 0 then
                   && Leaves(s.net, after.net, peer, heard) && after.spent == FramePaid(s, t)
                   && after.trace == checked + [Stamped(t.at, Sent(peer, RateLimited(PerKey, wait, None))),
                                                Stamped(t.at, SocketClosed(peer, RateLimitedClose))]
                 else
                   && after.spent == FramePaid(s, t).(announcements := Granted(s.spent.announcements, key, t.at))
                   && after.net.announced == s.net.announced[key := peer]
                   && if key in s.net.announced then
                        var earlier := s.net.announced[key];
                        && earlier < |s.net.all|
                        && after.net.all == s.net.all[earlier := s.net.all[earlier].(phase := Closed)]
                                                     [peer := heard.(phase := Ready)]
                        && after.trace == checked + [Stamped(t.at, Sent(earlier, Error(Replaced, None))),
                                                     Stamped(t.at, SocketClosed(earlier, ReplacedClose)),
                                                     Stamped(t.at, Sent(peer, Announced))]
                      else
                        && after.net.all == s.net.all[peer := heard.(phase := Ready)]
                        && after.trace == checked + [Stamped(t.at, Sent(peer, Announced))]
  {
    hide Do, RefuseFrame, OnProven, Gone, Tables;
    var peer, signature := t.step.peer, t.step.message.frame.value.signature;
    var view, counted := s.net.all[peer], Counted(s, peer, t.at);
    ReadIs(c, s, t);
    CountedFrame(s, peer, t.at);
    RefuseOutcome(s, t);
    ShapedChallenges(s.net);
    if view.phase == Challenged && view.nonce.Some? {
      var heard, claim := HeardView(s, t).(nonce := None), ClaimOf(view);
      var passed := c.verify(claim.publicKey, claim, signature);
      var checked := Show(SetPeer(counted, peer, heard), Checked(peer, claim, signature, passed), t.at);
      HeardKeeps(s.net, peer, t.at);
      SetKeeps(counted.net, peer, heard);
      GoneLeaves(checked.net, peer, heard, s.net);
      if passed {
        assert Do(c, s, t) == OnProven(c, checked, peer, claim.publicKey, t.at);
        ProvenOutcome(c, s.net, checked, peer, claim.publicKey, t.at);
      }
    }
  }

  lemma ShapedChallenges(n: Net)
    requires Tables(n)
    ensures forall peer: nat :: peer < |n.all| && n.all[peer].phase == Challenged ==>
              n.all[peer].role.Some? && n.all[peer].publicKey.Some?
  {
  }

  /** The earlier socket of a key leaves. */
  lemma ReplaceOutcome(s: State, key: Key, now: int)
    requires Tables(s.net) && key in s.net.announced && s.net.KnowsHolder(key)
    ensures var after, earlier := Replace(s, key, now), s.net.announced[key];
            && s.net.all[earlier].phase == Ready && after.spent == s.spent && after.suspended == s.suspended
            && after.net.all == s.net.all[earlier := s.net.all[earlier].(phase := Closed)]
            && after.net.announced == s.net.announced - {key}
            && after.trace == s.trace + [Stamped(now, Sent(earlier, Error(Replaced, None))),
                                         Stamped(now, SocketClosed(earlier, ReplacedClose))]
  {
    var earlier := s.net.announced[key];
    EarlierIsOpen(s.net, key);
    hide Gone, Tables;
    GoneLeaves(s.net, earlier, s.net.all[earlier], s.net);
  }

  lemma ProvenOutcome(c: Config, before: Net, s: State, peer: nat, key: Key, now: int)
    requires Tables(s.net) && peer < |s.net.all| && s.net.KnowsHolder(key)
    requires s.net.all[peer].phase == Challenged && s.net.all[peer].publicKey == Some(key)
    requires |before.all| == |s.net.all| && s.net.all == before.all[peer := s.net.all[peer]]
    requires before.announced == s.net.announced
    ensures var after, view := OnProven(c, s, peer, key, now), s.net.all[peer];
            var wait := Wait(c.limits.announcements, GrantsOf(s.spent.announcements, key), now);
            && after.suspended == s.suspended
            && if wait > 0 then
                 && Leaves(before, after.net, peer, view) && after.spent == s.spent
                 && after.trace == s.trace + [Stamped(now, Sent(peer, RateLimited(PerKey, wait, None))),
                                              Stamped(now, SocketClosed(peer, RateLimitedClose))]
               else
                 && after.spent == s.spent.(announcements := Granted(s.spent.announcements, key, now))
                 && after.net.announced == before.announced[key := peer]
                 && if key in before.announced then
                      var earlier := before.announced[key];
                      && earlier < |before.all|
                      && after.net.all == before.all[earlier := before.all[earlier].(phase := Closed)]
                                                    [peer := view.(phase := Ready)]
                      && after.trace == s.trace + [Stamped(now, Sent(earlier, Error(Replaced, None))),
                                                   Stamped(now, SocketClosed(earlier, ReplacedClose)),
                                                   Stamped(now, Sent(peer, Announced))]
                    else
                      && after.net.all == before.all[peer := view.(phase := Ready)]
                      && after.trace == s.trace + [Stamped(now, Sent(peer, Announced))]
  {
    hide Gone, Replace, Tables;
    GoneLeaves(s.net, peer, s.net.all[peer], before);
    if key in s.net.announced {
      ReplaceOutcome(s.(spent := s.spent.(announcements := Granted(s.spent.announcements, key, now))), key, now);
      assert (s.net.announced - {key})[key := peer] == s.net.announced[key := peer];
    } else {
      NothingReplaced(s.(spent := s.spent.(announcements := Granted(s.spent.announcements, key, now))), key, now);
    }
  }

  lemma NothingReplaced(s: State, key: Key, now: int)
    requires key !in s.net.announced
    ensures Replace(s, key, now) == s
  {
  }

  lemma EarlierIsOpen(n: Net, key: Key)
    requires Tables(n) && key in n.announced
    ensures n.announced[key] < |n.all| && n.all[n.announced[key]].phase == Ready
    ensures n.all[n.announced[key]].publicKey == Some(key)
    ensures forall other :: other in n.announced && n.announced[other] == n.announced[key] ==> other == key
  {
  }

  // ---------------------------------------------------------------------------------------------
  // Sweeping and going away

  /** What a sweep shows of a peer that is open: it is closed, pinged or left alone. */
  function SweepEffect(c: Config, view: PeerView, peer: nat, now: int): Option<Effect> {
    var l := c.limits;
    if (view.phase != Ready && now - view.openedAt > l.helloTimeoutMs)
       || now - view.lastHeardAt > l.heartbeatMs * 2 then
      Some(SocketClosed(peer, Timeout))
    else if now - view.lastPingAt >= l.heartbeatMs then Some(Pinged(peer))
    else None
  }

  function PeerOf(effect: Effect): nat {
    effect.peer
  }

  /**
   A sweep closes each expired peer once and pings each other once whose last ping is a heartbeat ago,
   and shows nothing else; it spends no budget and leaves the open questions alone.
   */
  lemma SweepShows(c: Config, s: State, now: int, shown: Stamped)
    requires s.Wf() && Tables(s.net)
    ensures var after := Do(c, s, Timed(now, Sweep));
            && s.trace <= after.trace && after.spent == s.spent && after.suspended == s.suspended
            && var peer, l := PeerOf(shown.effect), c.limits;
               multiset(after.trace[|s.trace|..])[shown] ==
                 if shown.at != now || peer >= |s.net.all| || s.net.all[peer].phase == Closed then 0
                 else
                   var view := s.net.all[peer];
                   var expired := (view.phase != Ready && now - view.openedAt > l.helloTimeoutMs)
                                  || now - view.lastHeardAt > l.heartbeatMs * 2;
                   if expired && shown.effect == SocketClosed(peer, Timeout) then 1
                   else if !expired && now - view.lastPingAt >= l.heartbeatMs && shown.effect == Pinged(peer) then 1
                   else 0
  {
    var peer := PeerOf(shown.effect);
    SweepAdds(c, s, s.net.live, now, shown);
    SweepOnlyLeaves(c, s, s.net.live, now);
    LoopsAskNothing(c, s, s.net.live, now);
    LiveAreOpen(s.net, peer);
  }

  lemma LiveAreOpen(n: Net, peer: nat)
    requires Tables(n)
    ensures peer in n.live <==> peer < |n.all| && n.all[peer].phase != Closed
    ensures InRange(n, n.live) && Increasing(n.live)
    ensures forall i :: 0 <= i < |n.live| ==> n.all[n.live[i]].phase != Closed
  {
  }

  lemma SweepPeerAdds(c: Config, s: State, peer: nat, now: int)
    requires peer < |s.net.all|
    ensures var effect := SweepEffect(c, s.net.all[peer], peer, now);
            SweepPeer(c, s, peer, now).trace
            == s.trace + if effect.Some? then [Stamped(now, effect.value)] else []
  {
  }

  lemma {:induction false} SweepAdds(c: Config, s: State, peers: seq<nat>, now: int, shown: Stamped)
    requires Tables(s.net) && InRange(s.net, peers) && Increasing(peers)
    requires forall i :: 0 <= i < |peers| ==> s.net.all[peers[i]].phase != Closed
    ensures var after, peer := SweepAll(c, s, peers, now), PeerOf(shown.effect);
            && s.trace <= after.trace
            && multiset(after.trace[|s.trace|..])[shown]
               == if peer in peers && shown.at == now
                     && SweepEffect(c, s.net.all[peer], peer, now) == Some(shown.effect)
                  then 1 else 0
  {
    if peers != [] {
      hide SweepPeer, Tables, SweepEffect, Swept, Increasing;
      var n, peer := |peers| - 1, PeerOf(shown.effect);
      var mid := SweepAll(c, s, peers[..n], now);
      LastIsNew(peers, peer);
      SweepAdds(c, s, peers[..n], now, shown);
      SweptOnce(c, s, peers[..n], now, peers[n]);
      SweepPeerAdds(c, mid, peers[n], now);
      EffectIsOfPeer(c, s.net.all[peers[n]], peers[n], now);
      var effect := SweepEffect(c, s.net.all[peers[n]], peers[n], now);
      var more := if effect.Some? then [Stamped(now, effect.value)] else [];
      assert SweepAll(c, s, peers, now).trace[|s.trace|..] == mid.trace[|s.trace|..] + more;
    }
  }

  lemma EffectIsOfPeer(c: Config, view: PeerView, peer: nat, now: int)
    ensures var effect := SweepEffect(c, view, peer, now);
            effect.Some? ==> PeerOf(effect.value) == peer
  {
  }

  /** Going away closes each open peer once, with that reason, and shows nothing else. */
  lemma GoAwayShows(c: Config, s: State, now: int, shown: Stamped)
    requires s.Wf() && Tables(s.net)
    ensures var after := Do(c, s, Timed(now, GoAway));
            && s.trace <= after.trace && after.spent == s.spent && after.suspended == s.suspended
            && var peer := PeerOf(shown.effect);
               multiset(after.trace[|s.trace|..])[shown] ==
                 if shown.at == now && peer < |s.net.all| && s.net.all[peer].phase != Closed
                    && shown.effect == SocketClosed(peer, GoingAway) then 1 else 0
  {
    var peer := PeerOf(shown.effect);
    LiveAreOpen(s.net, peer);
    CloseAdds(s, s.net.live, now, shown);
    CloseAllOnlyLeaves(s, s.net.live, now);
    LoopsAskNothing(c, s, s.net.live, now);
  }

  lemma {:induction false} CloseAdds(s: State, peers: seq<nat>, now: int, shown: Stamped)
    requires InRange(s.net, peers) && Increasing(peers)
    ensures var after, peer := CloseAll(s, peers, now), PeerOf(shown.effect);
            && s.trace <= after.trace
            && multiset(after.trace[|s.trace|..])[shown]
               == if peer in peers && shown == Stamped(now, SocketClosed(peer, GoingAway)) then 1 else 0
  {
    if peers != [] {
      hide Gone, Increasing;
      var n, peer := |peers| - 1, PeerOf(shown.effect);
      var mid := CloseAll(s, peers[..n], now);
      LastIsNew(peers, peer);
      CloseAdds(s, peers[..n], now, shown);
      assert CloseAll(s, peers, now).trace[|s.trace|..]
          == mid.trace[|s.trace|..] + [Stamped(now, SocketClosed(peers[n], GoingAway))];
    }
  }

  // ---------------------------------------------------------------------------------------------
  // Admitting, opening, hearing and leaving

  /** An address over its cap waits a minute and spends nothing; any other takes from its connection budget. */
  lemma AdmitOutcome(c: Config, s: State, address: string, now: int)
    requires s.Wf() && Tables(s.net)
    ensures var after, ip := Do(c, s, Timed(now, Admit(address))), c.addressKey(address);
            var full := SocketsOn(s.net.all, s.net.live, ip) >= c.limits.maxSocketsPerIp;
            var wait := Wait(c.limits.connections, GrantsOf(s.spent.connections, ip), now);
            && AdmitWait(c, s, address, now) == (if full then 60_000 else wait)
            && after == if full || wait > 0 then s
                        else s.(spent := s.spent.(connections := Granted(s.spent.connections, ip, now)))
  {
    assert CountAgrees(s.net, c.addressKey(address));
  }

  /** An open adds one new peer under the key of its address, and nothing else changes but the tables it is in. */
  lemma OpenOutcome(c: Config, s: State, address: string, name: string, now: int)
    requires s.Wf()
    ensures var after, ip := Do(c, s, Timed(now, Open(address, name))), c.addressKey(address);
            && after.net.all == s.net.all + [PeerView(ip, name, now, New, None, None, None, now, now)]
            && after.net.announced == s.net.announced
            && after.spent == s.spent && after.suspended == s.suspended && after.trace == s.trace
  {
  }

  /** A pong changes when its peer was last heard, and nothing else. */
  lemma HeardOutcome(c: Config, s: State, peer: nat, now: int)
    requires s.Wf() && peer < |s.net.all|
    ensures Do(c, s, Timed(now, Heard(peer)))
         == s.(net := s.net.(all := s.net.all[peer := s.net.all[peer].(lastHeardAt := now)]))
  {
  }

  /** A socket that ends takes its peer along, the first time, and shows nothing. */
  lemma SocketGoneOutcome(c: Config, s: State, peer: nat, now: int)
    requires s.Wf() && Tables(s.net) && peer < |s.net.all|
    ensures var after := Do(c, s, Timed(now, SocketGone(peer)));
            && after.spent == s.spent && after.suspended == s.suspended && after.trace == s.trace
            && if s.net.all[peer].phase == Closed then after == s
               else Leaves(s.net, after.net, peer, s.net.all[peer])
  {
    hide Gone;
    GoneFrame(s.net, peer);
    LiveAreOpen(s.net, peer);
    if s.net.all[peer].phase == Closed {
      GoneTwice(s.net, peer);
    } else {
      GoneLeaves(s.net, peer, s.net.all[peer], s.net);
    }
  }

  lemma GoneTwice(n: Net, peer: nat)
    requires peer < |n.all| && peer !in n.live
    ensures Gone(n, peer) == n
  {
  }
}
