/**
 Who causes what: which step relays a frame, hands out ICE servers, asks the TURN provider or
 changes who is announced under a key, and what a sweep leaves behind.
 */
module BrokerEffects {
  import opened Options
  import opened RateLimit
  import opened BrokerModel
  import opened BrokerTables

  // ---------------------------------------------------------------------------------------------
  // Effects only some steps have

  /** Neither a relayed frame nor anything about TURN, a failed question included. */
  predicate Plain(effect: Effect) {
    && !(effect.Sent? && (effect.frame.Relayed? || effect.frame.IceServers?))
    && !(effect.Sent? && effect.frame.Error? && effect.frame.code == Internal)
    && !effect.TurnAsked?
  }

  ghost predicate PlainGrowth(trace: seq<Stamped>, more: seq<Stamped>) {
    trace <= more && forall i :: |trace| <= i < |more| ==> Plain(more[i].effect)
  }

  lemma RefuseIsPlain(s: State, peer: nat, now: int)
    requires peer < |s.net.all|
    ensures PlainGrowth(s.trace, RefuseFrame(s, peer, now).trace)
  {
  }

  lemma OnProvenIsPlain(c: Config, s: State, peer: nat, key: Key, now: int)
    requires peer < |s.net.all| && s.net.KnowsHolder(key)
    ensures PlainGrowth(s.trace, OnProven(c, s, peer, key, now).trace)
  {
    if Wait(c.limits.announcements, GrantsOf(s.spent.announcements, key), now) == 0 {
      var counted := s.(spent := s.spent.(announcements := Granted(s.spent.announcements, key, now)));
      assert PlainGrowth(s.trace, Replace(counted, key, now).trace);
    }
  }

  lemma OnProveIsPlain(c: Config, s: State, peer: nat, signature: string, now: int)
    requires peer < |s.net.all| && s.Wf()
    ensures PlainGrowth(s.trace, OnProve(c, s, peer, signature, now).trace)
  {
    var view := s.net.all[peer];
    if view.phase != Challenged || view.role.None? || view.publicKey.None? || view.nonce.None? {
      RefuseIsPlain(s, peer, now);
    } else {
      var key := view.publicKey.value;
      var claim := Claim(view.name, view.role.value, key, view.nonce.value);
      var passed := c.verify(key, claim, signature);
      var checked := Show(SetPeer(s, peer, view.(nonce := None)), Checked(peer, claim, signature, passed), now);
      if passed {
        OnProvenIsPlain(c, checked, peer, key, now);
      }
    }
  }

  lemma {:induction false} SweepAllIsPlain(c: Config, s: State, peers: seq<nat>, now: int)
    requires InRange(s.net, peers)
    ensures PlainGrowth(s.trace, SweepAll(c, s, peers, now).trace)
  {
    if peers != [] {
      var n := |peers| - 1;
      SweepAllIsPlain(c, s, peers[..n], now);
      assert PlainGrowth(SweepAll(c, s, peers[..n], now).trace, SweepAll(c, s, peers, now).trace);
    }
  }

  lemma {:induction false} CloseAllIsPlain(s: State, peers: seq<nat>, now: int)
    requires InRange(s.net, peers)
    ensures PlainGrowth(s.trace, CloseAll(s, peers, now).trace)
  {
    if peers != [] {
      var n := |peers| - 1;
      CloseAllIsPlain(s, peers[..n], now);
      assert PlainGrowth(CloseAll(s, peers[..n], now).trace, CloseAll(s, peers, now).trace);
    }
  }

  // ---------------------------------------------------------------------------------------------
  // Relaying

  /** The step is a frame the broker reads: the sender is open, within the size cap and its address's frame budget. */
  predicate Reads(c: Config, s: State, t: Timed, peer: nat) {
    && t.step.Message? && t.step.peer == peer && peer < |s.net.all|
    && s.net.all[peer].phase != Closed
    && t.step.message.Text? && t.step.message.bytes <= c.limits.maxMessageBytes && t.step.message.frame.Some?
    && Wait(c.limits.frames, GrantsOf(s.spent.frames, s.net.all[peer].ip), t.at) == 0
  }

  /** The state in which a frame of a peer is read: the peer was heard and the frame counted against its address. */
  function Counted(s: State, peer: nat, now: int): State
    requires peer < |s.net.all|
  {
    OnHeard(s, peer, now).(spent := s.spent.(frames := Granted(s.spent.frames, s.net.all[peer].ip, now)))
  }

  lemma CountedFrame(s: State, peer: nat, now: int)
    requires peer < |s.net.all|
    ensures var counted := Counted(s, peer, now);
            && (s.Wf() ==> counted.Wf())
            && counted.trace == s.trace && counted.suspended == s.suspended
            && counted.net == s.net.Set(peer, s.net.all[peer].(lastHeardAt := now))
            && counted.spent == s.spent.(frames := counted.spent.frames)
  {
  }

  lemma ReadIs(c: Config, s: State, t: Timed)
    requires s.Wf() && t.step.Message? && Reads(c, s, t, t.step.peer)
    ensures Counted(s, t.step.peer, t.at).Wf()
    ensures Do(c, s, t)
         == OnFrame(c, Counted(s, t.step.peer, t.at), t.step.peer, t.step.message.frame.value, t.step.nonce, t.at)
  {
    hide OnFrame;
  }

  /** A message that is not read is dropped, closes the socket, or is refused. */
  lemma UnreadIs(c: Config, s: State, t: Timed)
    requires s.Wf() && t.step.Message? && t.step.peer < |s.net.all| && !Reads(c, s, t, t.step.peer)
    ensures var peer, message, now := t.step.peer, t.step.message, t.at;
            var wait := Wait(c.limits.frames, GrantsOf(s.spent.frames, s.net.all[peer].ip), now);
            Do(c, s, t) ==
              if s.net.all[peer].phase == Closed then s
              else if message.Text? && message.bytes > c.limits.maxMessageBytes then
                Close(OnHeard(s, peer, now), peer, TooLarge, now)
              else if wait > 0 then Send(OnHeard(s, peer, now), peer, RateLimited(PerIp, wait, None), now)
              else RefuseFrame(Counted(s, peer, now), peer, now)
  {
    hide OnFrame, RefuseFrame, Close;
  }

  /** A ready peer's relay that is read, within its key's budget, to a connected key of the opposite role. */
  predicate Delivers(c: Config, s: State, t: Timed, peer: nat, holder: nat) {
    && Reads(c, s, t, peer)
    && s.net.all[peer].phase == Ready && s.net.all[peer].publicKey.Some?
    && t.step.message.frame.value.Relay?
    && Wait(c.limits.relays, GrantsOf(s.spent.relays, s.net.all[peer].publicKey.value), t.at) == 0
    && t.step.message.frame.value.to in s.net.announced
    && s.net.announced[t.step.message.frame.value.to] == holder && holder < |s.net.all|
    && s.net.all[holder].role != s.net.all[peer].role
  }

  /**
   What a delivered relay shows: the frame at the holder's socket, as it was sent and under the
   sender's proven key, then the receipt.
   */
  predicate Relays(s: State, after: State, t: Timed, peer: nat, holder: nat) {
    && t.step.Message? && t.step.message.Text? && t.step.message.frame.Some? && t.step.message.frame.value.Relay?
    && peer < |s.net.all| && s.net.all[peer].publicKey.Some?
    && var frame := t.step.message.frame.value;
       after.trace == s.trace + [
         Stamped(t.at, Sent(holder, Relayed(s.net.all[peer].publicKey.value, frame.envelope, frame.signature))),
         Stamped(t.at, Sent(peer, Delivered(frame.id)))]
  }

  /** The one answer of a relay that is not delivered. */
  predicate Declines(effect: Effect, peer: nat, id: string) {
    || effect == SocketClosed(peer, TooLarge)
    || effect == Sent(peer, Error(NotConnected, Some(id)))
    || (effect.Sent? && effect.peer == peer && effect.frame.RateLimited? && effect.frame.retryAfterMs > 0
        && effect.frame.limitedId == if effect.frame.scope == PerKey then Some(id) else None)
  }

  lemma OnRelayOutcome(c: Config, s: State, peer: nat, id: string, to: Key, envelope: string, signature: string,
          now: int)
    requires peer < |s.net.all| && s.net.KnowsHolder(to)
    requires s.net.all[peer].phase == Ready && s.net.all[peer].publicKey.Some?
    ensures var after := OnRelay(c, s, peer, id, to, envelope, signature, now);
            var key := s.net.all[peer].publicKey.value;
            if Wait(c.limits.relays, GrantsOf(s.spent.relays, key), now) == 0
               && to in s.net.announced && s.net.all[s.net.announced[to]].role != s.net.all[peer].role
            then after.trace == s.trace + [Stamped(now, Sent(s.net.announced[to], Relayed(key, envelope, signature))),
                                           Stamped(now, Sent(peer, Delivered(id)))]
            else |after.trace| == |s.trace| + 1 && s.trace <= after.trace
                 && Declines(after.trace[|s.trace|].effect, peer, id)
    ensures OnRelay(c, s, peer, id, to, envelope, signature, now).suspended == s.suspended
  {
  }

  /**
   A relay of a ready peer is delivered unchanged to the holder of the key and acknowledged, or
   answered exactly once.
   */
  lemma RelayIsAnsweredOnce(c: Config, s: State, t: Timed)
    requires s.Wf() && Tables(s.net)
    requires t.step.Message? && t.step.peer < |s.net.all| && s.net.all[t.step.peer].phase == Ready
    requires t.step.message.Text? && t.step.message.frame.Some? && t.step.message.frame.value.Relay?
    ensures var after := Do(c, s, t);
            var peer := t.step.peer;
            if exists holder: nat :: Delivers(c, s, t, peer, holder)
            then exists holder: nat :: Delivers(c, s, t, peer, holder) && Relays(s, after, t, peer, holder)
            else |after.trace| == |s.trace| + 1 && s.trace <= after.trace
                 && Declines(after.trace[|s.trace|].effect, peer, t.step.message.frame.value.id)
  {
    hide Do, OnFrame, OnRelay;
    var peer, frame := t.step.peer, t.step.message.frame.value;
    if Reads(c, s, t, peer) {
      ReadRelayOutcome(c, s, t);
      if frame.to in s.net.announced && Delivers(c, s, t, peer, s.net.announced[frame.to]) {
        assert Relays(s, Do(c, s, t), t, peer, s.net.announced[frame.to]);
      }
    } else {
      UnreadIs(c, s, t);
      CountedFrame(s, peer, t.at);
    }
  }

  lemma ReadRelayOutcome(c: Config, s: State, t: Timed)
    requires s.Wf() && Tables(s.net) && t.step.Message? && Reads(c, s, t, t.step.peer)
    requires t.step.message.frame.value.Relay? && s.net.all[t.step.peer].phase == Ready
    ensures var peer, frame := t.step.peer, t.step.message.frame.value;
            var after := Do(c, s, t);
            && after.suspended == s.suspended
            && if frame.to in s.net.announced && Delivers(c, s, t, peer, s.net.announced[frame.to])
               then Relays(s, after, t, peer, s.net.announced[frame.to])
               else |after.trace| == |s.trace| + 1 && s.trace <= after.trace
                    && Declines(after.trace[|s.trace|].effect, peer, frame.id)
  {
    hide Do, OnRelay;
    var peer, frame := t.step.peer, t.step.message.frame.value;
    var counted := Counted(s, peer, t.at);
    ReadIs(c, s, t);
    CountedFrame(s, peer, t.at);
    OnRelayOutcome(c, counted, peer, frame.id, frame.to, frame.envelope, frame.signature, t.at);
  }

  /** Nothing else relays: a frame relayed by a step was delivered for a ready peer of the opposite role. */
  lemma OnlyRelaysRelay(c: Config, s: State, t: Timed, i: nat)
    requires s.Wf() && Tables(s.net)
    requires var after := Do(c, s, t);
             |s.trace| <= i < |after.trace| && after.trace[i].effect.Sent? && after.trace[i].effect.frame.Relayed?
    ensures exists peer: nat, holder: nat ::
              && Delivers(c, s, t, peer, holder)
              && Relays(s, Do(c, s, t), t, peer, holder)
              && s.net.all[holder].phase == Ready
              && s.net.all[holder].publicKey == Some(t.step.message.frame.value.to)
  {
    hide Do;
    var after := Do(c, s, t);
    assert !Plain(after.trace[i].effect);
    StepIsPlainOrSpecial(c, s, t);
    if t.step.IceAnswer? {
      IceAnswerReachesTheReady(c, s, t);
      assert false;
    } else if t.step.message.frame.value.Ice? {
      ReadyIceOutcome(c, s, t);
      assert false;
    }
    var peer, to := t.step.peer, t.step.message.frame.value.to;
    ReadRelayOutcome(c, s, t);
    assert Delivers(c, s, t, peer, s.net.announced[to]);
  }

  // ---------------------------------------------------------------------------------------------
  // ICE

  lemma OnIceOutcome(c: Config, s: State, peer: nat, id: string, now: int)
    requires peer < |s.net.all| && s.net.all[peer].phase == Ready
    requires s.net.all[peer].role.Some? && s.net.all[peer].publicKey.Some?
    ensures var after := OnIce(c, s, peer, id, now);
            && |after.trace| == |s.trace| + 1 && s.trace <= after.trace
            && var effect := after.trace[|s.trace|].effect;
               if after.suspended == s.suspended
               then effect.Sent? && effect.peer == peer && effect.frame.RateLimited?
                   && effect.frame.limitedId == Some(id)
               else effect == TurnAsked(peer, id, s.net.all[peer].role.value, s.net.all[peer].publicKey.value)
                    && after.suspended == s.suspended + [Suspended(peer, id)]
  {
  }

  lemma OnlyQuestionsAsk(c: Config, s: State, t: Timed, i: nat)
    requires s.Wf() && Tables(s.net)
    requires |s.trace| <= i < |Do(c, s, t).trace| && Do(c, s, t).trace[i].effect.TurnAsked?
    ensures ReadsQuestion(c, s, t)
  {
    hide Do, Tables;
    StepIsPlainOrSpecial(c, s, t);
    if t.step.IceAnswer? {
      IceAnswerReachesTheReady(c, s, t);
    } else {
      assert !Plain(Do(c, s, t).trace[i].effect);
      if t.step.message.frame.value.Relay? {
        ReadRelayOutcome(c, s, t);
      }
    }
  }

  /** Only a frame of a ready peer asks the TURN provider, and only under the peer's own role and key. */
  lemma OnlyReadyPeersAskTurn(c: Config, s: State, t: Timed, i: nat)
    requires s.Wf() && Tables(s.net)
    requires var after := Do(c, s, t);
             |s.trace| <= i < |after.trace| && after.trace[i].effect.TurnAsked?
    ensures var after := Do(c, s, t);
            var TurnAsked(peer, id, role, key) := after.trace[i].effect;
            && Reads(c, s, t, peer) && t.step.message.frame.value == Ice(id)
            && s.net.all[peer].phase == Ready
            && s.net.all[peer].role == Some(role) && s.net.all[peer].publicKey == Some(key)
            && after.suspended == s.suspended + [Suspended(peer, id)]
            && |after.trace| == |s.trace| + 1
  {
    hide Do;
    OnlyQuestionsAsk(c, s, t, i);
    ReadyIceOutcome(c, s, t);
  }

  lemma ReadyIceOutcome(c: Config, s: State, t: Timed)
    requires s.Wf() && Tables(s.net) && ReadsQuestion(c, s, t)
    ensures var after := Do(c, s, t);
            var peer, id := t.step.peer, t.step.message.frame.value.id;
            && |after.trace| == |s.trace| + 1 && s.trace <= after.trace
            && var effect := after.trace[|s.trace|].effect;
               if after.suspended == s.suspended
               then effect.Sent? && effect.peer == peer && effect.frame.RateLimited?
                   && effect.frame.limitedId == Some(id)
               else effect == TurnAsked(peer, id, s.net.all[peer].role.value, s.net.all[peer].publicKey.value)
                    && after.suspended == s.suspended + [Suspended(peer, id)]
  {
    hide Do, OnIce;
    var peer, id := t.step.peer, t.step.message.frame.value.id;
    ReadIs(c, s, t);
    CountedFrame(s, peer, t.at);
    OnIceOutcome(c, Counted(s, peer, t.at), peer, id, t.at);
  }

  /** An answer to a question of a peer: ICE servers, or word that the provider failed. */
  predicate IsAnswer(effect: Effect) {
    && effect.Sent?
    && (effect.frame.IceServers?
        || (effect.frame.Error? && effect.frame.code == Internal && effect.frame.errorId.Some?))
  }

  /** The question an effect answers. */
  function AnswerTo(effect: Effect): Suspended
    requires IsAnswer(effect)
  {
    Suspended(effect.peer, if effect.frame.IceServers? then effect.frame.id else effect.frame.errorId.value)
  }

  /** An answer of the TURN provider reaches the peer that asked if that is still ready, and nobody otherwise. */
  lemma IceAnswerReachesTheReady(c: Config, s: State, t: Timed)
    requires s.Wf() && t.step.IceAnswer?
    ensures var after := Do(c, s, t);
            if t.step.index >= |s.suspended| then after == s
            else
              var asked := s.suspended[t.step.index];
              && after.net == s.net
              && after.suspended == s.suspended[..t.step.index] + s.suspended[t.step.index + 1..]
              && if s.net.all[asked.peer].phase == Ready
                 then after.trace == s.trace + [Stamped(t.at, Sent(asked.peer,
                        if t.step.grant.Some? then IceServers(asked.id, t.step.grant.value)
                        else Error(Internal, Some(asked.id))))]
                 else after.trace == s.trace
  {
  }

  /** The step is what the provider says to an open question of a ready peer, and `effect` tells that peer. */
  predicate AnswersBy(s: State, t: Timed, effect: Effect) {
    && IsAnswer(effect)
    && t.step.IceAnswer? && t.step.index < |s.suspended| && s.suspended[t.step.index] == AnswerTo(effect)
    && effect.frame == (if t.step.grant.Some? then IceServers(AnswerTo(effect).id, t.step.grant.value)
                        else Error(Internal, Some(AnswerTo(effect).id)))
    && effect.peer < |s.net.all| && s.net.all[effect.peer].phase == Ready
  }

  /** ICE servers, and word that the provider failed, reach a peer by such an answer only. */
  lemma OnlyAnswersAnswer(c: Config, s: State, t: Timed, i: nat)
    requires s.Wf() && Tables(s.net)
    requires var after := Do(c, s, t);
             |s.trace| <= i < |after.trace| && IsAnswer(after.trace[i].effect)
    ensures i == |s.trace| && AnswersBy(s, t, Do(c, s, t).trace[i].effect)
  {
    hide Do;
    var after := Do(c, s, t);
    assert !Plain(after.trace[i].effect);
    StepIsPlainOrSpecial(c, s, t);
    if t.step.IceAnswer? {
      IceAnswerReachesTheReady(c, s, t);
    } else if t.step.message.frame.value.Ice? {
      ReadyIceOutcome(c, s, t);
    } else {
      ReadRelayOutcome(c, s, t);
    }
  }

  /** The step is a question for ICE servers that is read from a ready peer. */
  predicate ReadsQuestion(c: Config, s: State, t: Timed) {
    && t.step.Message? && Reads(c, s, t, t.step.peer) && t.step.message.frame.value.Ice?
    && s.net.all[t.step.peer].phase == Ready
  }

  /** Neither the open questions nor the budgets for questions changed. */
  predicate NotAsked(s: State, after: State) {
    && after.suspended == s.suspended
    && after.spent.icePerIp == s.spent.icePerIp && after.spent.icePerKey == s.spent.icePerKey
    && after.spent.iceAll == s.spent.iceAll
  }

  lemma OnProveAsksNothing(c: Config, s: State, peer: nat, signature: string, now: int)
    requires peer < |s.net.all| && s.Wf()
    ensures NotAsked(s, OnProve(c, s, peer, signature, now))
  {
    hide Gone, Wait, OnProven;
    var view := s.net.all[peer];
    if view.phase == Challenged && view.role.Some? && view.publicKey.Some? && view.nonce.Some? {
      var key := view.publicKey.value;
      var claim := Claim(view.name, view.role.value, key, view.nonce.value);
      var passed := c.verify(key, claim, signature);
      var checked := Show(SetPeer(s, peer, view.(nonce := None)), Checked(peer, claim, signature, passed), now);
      OnProvenAsksNothing(c, checked, peer, key, now);
    }
  }

  lemma OnProvenAsksNothing(c: Config, s: State, peer: nat, key: Key, now: int)
    requires peer < |s.net.all| && s.net.KnowsHolder(key)
    ensures NotAsked(s, OnProven(c, s, peer, key, now))
  {
    hide Gone, Wait;
  }

  lemma OnRelayAsksNothing(c: Config, s: State, peer: nat, id: string, to: Key, envelope: string, signature: string,
                           now: int)
    requires peer < |s.net.all| && s.net.KnowsHolder(to)
    ensures NotAsked(s, OnRelay(c, s, peer, id, to, envelope, signature, now))
  {
  }

  lemma {:induction false} LoopsAskNothing(c: Config, s: State, peers: seq<nat>, now: int)
    requires InRange(s.net, peers)
    ensures NotAsked(s, SweepAll(c, s, peers, now)) && NotAsked(s, CloseAll(s, peers, now))
  {
    if peers != [] {
      LoopsAskNothing(c, s, peers[..|peers| - 1], now);
    }
  }

  lemma MessageAsksNothing(c: Config, s: State, t: Timed)
    requires s.Wf() && t.step.Message? && t.step.peer < |s.net.all| && !ReadsQuestion(c, s, t)
    ensures NotAsked(s, Do(c, s, t))
  {
    hide Do, OnProve, OnRelay;
    var peer := t.step.peer;
    var counted := Counted(s, peer, t.at);
    CountedFrame(s, peer, t.at);
    if Reads(c, s, t, peer) {
      ReadIs(c, s, t);
      match t.step.message.frame.value {
        case Prove(signature) => OnProveAsksNothing(c, counted, peer, signature, t.at);
        case Relay(id, to, envelope, signature) =>
          OnRelayAsksNothing(c, counted, peer, id, to, envelope, signature, t.at);
        case Hello(_, _) =>
        case Ice(_) =>
      }
    } else {
      UnreadIs(c, s, t);
    }
  }

  /** Questions are opened by such a step and settled by an answer, and by nothing else. */
  lemma StepAsksNothing(c: Config, s: State, t: Timed)
    requires s.Wf() && !t.step.IceAnswer? && !ReadsQuestion(c, s, t)
    ensures NotAsked(s, Do(c, s, t))
  {
    if Enabled(s, t.step) {
      match t.step {
        case Message(_, _, _) => MessageAsksNothing(c, s, t);
        case Sweep => LoopsAskNothing(c, s, s.net.live, t.at);
        case GoAway => LoopsAskNothing(c, s, s.net.live, t.at);
        case _ =>
      }
    }
  }

  /** A step with an effect that is not plain is a relay or an ICE question of a ready peer, or an answer to one. */
  lemma StepIsPlainOrSpecial(c: Config, s: State, t: Timed)
    requires s.Wf() && Tables(s.net)
    ensures || PlainGrowth(s.trace, Do(c, s, t).trace)
            || (t.step.IceAnswer? && t.step.index < |s.suspended|)
            || (t.step.Message? && Reads(c, s, t, t.step.peer) && s.net.all[t.step.peer].phase == Ready
                && (t.step.message.frame.value.Relay? || t.step.message.frame.value.Ice?))
  {
    match t.step {
      case Sweep => SweepAllIsPlain(c, s, s.net.live, t.at);
      case GoAway => CloseAllIsPlain(s, s.net.live, t.at);
      case Message(peer, _, _) =>
        if peer < |s.net.all| {
          MessageIsPlainOrSpecial(c, s, t);
        }
      case _ =>
    }
  }

  lemma MessageIsPlainOrSpecial(c: Config, s: State, t: Timed)
    requires s.Wf() && Tables(s.net) && t.step.Message? && t.step.peer < |s.net.all|
    ensures || PlainGrowth(s.trace, Do(c, s, t).trace)
            || (Reads(c, s, t, t.step.peer) && s.net.all[t.step.peer].phase == Ready
                && (t.step.message.frame.value.Relay? || t.step.message.frame.value.Ice?))
  {
    hide Do, OnProve, RefuseFrame;
    var peer := t.step.peer;
    var counted := Counted(s, peer, t.at);
    CountedFrame(s, peer, t.at);
    if Reads(c, s, t, peer) {
      ReadIs(c, s, t);
      match t.step.message.frame.value {
        case Prove(signature) => OnProveIsPlain(c, counted, peer, signature, t.at);
        case _ => RefuseIsPlain(counted, peer, t.at);
      }
    } else {
      UnreadIs(c, s, t);
      RefuseIsPlain(counted, peer, t.at);
    }
  }

  // ---------------------------------------------------------------------------------------------
  // Sweeping

  /**
   A sweep closes exactly the peers that proved no key in time or were silent through two heartbeats,
   and leaves every other pinged within its heartbeat.
   */
  lemma SweepOutcome(c: Config, s: State, now: int, peer: nat)
    requires s.Wf() && Tables(s.net) && peer < |s.net.all|
    ensures var before := s.net.all[peer];
            var after := Do(c, s, Timed(now, Sweep)).net.all[peer];
            var l := c.limits;
            if before.phase == Closed then after == before
            else if (before.phase != Ready && now - before.openedAt > l.helloTimeoutMs)
                    || now - before.lastHeardAt > l.heartbeatMs * 2 then
              after == before.(phase := Closed)
            else
              && after == before.(
                   lastPingAt := if now - before.lastPingAt >= l.heartbeatMs then now else before.lastPingAt)
              && (l.heartbeatMs > 0 ==> now - after.lastPingAt < l.heartbeatMs)
  {
    SweptOnce(c, s, s.net.live, now, peer);
  }

  lemma LastIsNew(peers: seq<nat>, peer: nat)
    requires peers != [] && Increasing(peers)
    ensures var n := |peers| - 1;
            && Increasing(peers[..n]) && peers[n] !in peers[..n]
            && (peer in peers <==> peer in peers[..n] || peer == peers[n])
  {
    assert peers == peers[..|peers| - 1] + [peers[|peers| - 1]];
  }

  lemma {:induction false} SweptOnce(c: Config, s: State, peers: seq<nat>, now: int, peer: nat)
    requires Tables(s.net) && InRange(s.net, peers) && peer < |s.net.all| && Increasing(peers)
    requires forall i :: 0 <= i < |peers| ==> s.net.all[peers[i]].phase != Closed
    ensures var after := SweepAll(c, s, peers, now).net.all[peer];
            after == if peer in peers then Swept(c, s.net.all[peer], now) else s.net.all[peer]
  {
    if peers != [] {
      hide SweepPeer, Tables, Swept, Increasing;
      var n := |peers| - 1;
      LastIsNew(peers, peer);
      SweptOnce(c, s, peers[..n], now, peer);
      SweptOnce(c, s, peers[..n], now, peers[n]);
      SweepAllKeeps(c, s, peers[..n], now);
      SweptPeer(c, SweepAll(c, s, peers[..n], now), peers[n], now, peer);
    }
  }

  lemma SweptPeer(c: Config, s: State, swept: nat, now: int, peer: nat)
    requires Tables(s.net) && swept < |s.net.all| && peer < |s.net.all| && s.net.all[swept].phase != Closed
    ensures |SweepPeer(c, s, swept, now).net.all| == |s.net.all|
    ensures SweepPeer(c, s, swept, now).net.all[peer]
         == if peer == swept then Swept(c, s.net.all[peer], now) else s.net.all[peer]
  {
    GoneFrame(s.net, swept);
  }

  function Swept(c: Config, view: PeerView, now: int): PeerView {
    if Expired(c, view, now) then view.(phase := Closed)
    else if now - view.lastPingAt >= c.limits.heartbeatMs then view.(lastPingAt := now)
    else view
  }
}
