/**
 What the limiters granted bounds what the outside saw: every frame relayed from a key and
 every call to the TURN provider was paid for with a take of its own limiter.
 */
module BrokerRates {
  import opened Options
  import opened RateLimit
  import opened BrokerModel

  // ---------------------------------------------------------------------------------------------
  // Every history stays one a limiter can have granted

  ghost predicate Granting(l: Limit, history: Grants, clock: int) {
    forall key :: key in history ==> Admissible(l, history[key], clock)
  }

  ghost predicate Metered(l: Limits, spent: Spent, clock: int) {
    && Granting(l.connections, spent.connections, clock)
    && Granting(l.frames, spent.frames, clock)
    && Granting(l.relays, spent.relays, clock)
    && Granting(l.announcements, spent.announcements, clock)
    && Granting(l.icePerKey, spent.icePerKey, clock)
    && Granting(l.icePerIp, spent.icePerIp, clock)
    && Granting(l.iceAll, spent.iceAll, clock)
  }

  lemma MeteredLater(l: Limits, spent: Spent, clock: int, now: int)
    requires Metered(l, spent, clock) && clock <= now
    ensures Metered(l, spent, now)
  {
    GrantingLater(l.connections, spent.connections, clock, now);
    GrantingLater(l.frames, spent.frames, clock, now);
    GrantingLater(l.relays, spent.relays, clock, now);
    GrantingLater(l.announcements, spent.announcements, clock, now);
    GrantingLater(l.icePerKey, spent.icePerKey, clock, now);
    GrantingLater(l.icePerIp, spent.icePerIp, clock, now);
    GrantingLater(l.iceAll, spent.iceAll, clock, now);
  }

  lemma GrantingLater(l: Limit, history: Grants, clock: int, now: int)
    requires Granting(l, history, clock) && clock <= now
    ensures Granting(l, history, now)
  {
    forall key | key in history ensures Admissible(l, history[key], now) {
      LaterIsAdmissible(l, history[key], clock, now);
    }
  }

  /** A take that does not wait extends the history of its key. */
  lemma GrantKeeps(l: Limit, history: Grants, key: string, now: int)
    requires l.Valid() && Granting(l, history, now) && Wait(l, GrantsOf(history, key), now) == 0
    ensures Granting(l, Granted(history, key, now), now)
  {
    GrantStaysAdmissible(l, GrantsOf(history, key), now);
  }

  // ---------------------------------------------------------------------------------------------
  // What was relayed and asked

  /** When frames were relayed from `key`. */
  function RelayTimes(trace: seq<Stamped>, key: Key): seq<int> {
    if trace == [] then []
    else
      var last := trace[|trace| - 1];
      RelayTimes(trace[..|trace| - 1], key)
        + if IsRelayed(last.effect) && last.effect.frame.from == key then [last.at] else []
  }

  predicate IsRelayed(effect: Effect) {
    effect.Sent? && effect.frame.Relayed?
  }

  /** When the TURN provider was asked. */
  function TurnTimes(trace: seq<Stamped>): seq<int> {
    if trace == [] then []
    else
      var last := trace[|trace| - 1];
      TurnTimes(trace[..|trace| - 1]) + if last.effect.TurnAsked? then [last.at] else []
  }

  /** No window holds more of `times` than of `grants`. */
  ghost predicate Within(times: seq<int>, grants: seq<int>) {
    forall from, to :: CountIn(times, from, to) <= CountIn(grants, from, to)
  }

  lemma WithinBoth(times: seq<int>, grants: seq<int>, now: int)
    requires Within(times, grants)
    ensures Within(times + [now], grants + [now])
    ensures Within(times, grants + [now])
  {
    forall from, to
      ensures CountIn(times + [now], from, to) <= CountIn(grants + [now], from, to)
      ensures CountIn(times, from, to) <= CountIn(grants + [now], from, to)
    {
      assert (times + [now])[..|times|] == times;
      assert (grants + [now])[..|grants|] == grants;
      assert CountIn(times, from, to) <= CountIn(grants, from, to);
    }
  }

  ghost predicate PaidFor(trace: seq<Stamped>, relays: Grants, iceAll: Grants) {
    && (forall key :: Within(RelayTimes(trace, key), GrantsOf(relays, key)))
    && Within(TurnTimes(trace), GrantsOf(iceAll, "all"))
  }

  ghost predicate Paid(s: State) {
    PaidFor(s.trace, s.spent.relays, s.spent.iceAll)
  }

  lemma TimesShow(s: State, effect: Effect, now: int)
    ensures forall key ::
              (RelayTimes(Show(s, effect, now).trace, key)
               == RelayTimes(s.trace, key) + if IsRelayed(effect) && effect.frame.from == key then [now] else [])
    ensures TurnTimes(Show(s, effect, now).trace)
         == TurnTimes(s.trace) + if effect.TurnAsked? then [now] else []
  {
    assert Show(s, effect, now).trace[..|s.trace|] == s.trace;
  }

  /** Showing anything else costs nothing. */
  lemma ShowIsFree(s: State, effect: Effect, now: int)
    requires Paid(s) && !IsRelayed(effect) && !effect.TurnAsked?
    ensures Paid(Show(s, effect, now))
  {
    TimesShow(s, effect, now);
    forall key ensures Within(RelayTimes(Show(s, effect, now).trace, key), GrantsOf(s.spent.relays, key)) {
      assert RelayTimes(Show(s, effect, now).trace, key) == RelayTimes(s.trace, key);
    }
    assert TurnTimes(Show(s, effect, now).trace) == TurnTimes(s.trace);
  }

  lemma RelayTakenKeeps(s: State, key: Key, now: int)
    requires Paid(s)
    ensures PaidFor(s.trace, Granted(s.spent.relays, key, now), s.spent.iceAll)
  {
    forall other ensures Within(RelayTimes(s.trace, other), GrantsOf(Granted(s.spent.relays, key, now), other)) {
      assert Within(RelayTimes(s.trace, other), GrantsOf(s.spent.relays, other));
      if other == key {
        WithinBoth(RelayTimes(s.trace, key), GrantsOf(s.spent.relays, key), now);
      }
    }
  }

  lemma RelayIsPaid(s: State, to: nat, key: Key, envelope: string, signature: string, now: int)
    requires Paid(s)
    ensures PaidFor(Send(s, to, Relayed(key, envelope, signature), now).trace,
                    Granted(s.spent.relays, key, now), s.spent.iceAll)
  {
    var shown := Send(s, to, Relayed(key, envelope, signature), now);
    TimesShow(s, Sent(to, Relayed(key, envelope, signature)), now);
    forall other ensures Within(RelayTimes(shown.trace, other), GrantsOf(Granted(s.spent.relays, key, now), other)) {
      assert Within(RelayTimes(s.trace, other), GrantsOf(s.spent.relays, other));
      if other == key {
        WithinBoth(RelayTimes(s.trace, key), GrantsOf(s.spent.relays, key), now);
      } else {
        assert RelayTimes(shown.trace, other) == RelayTimes(s.trace, other);
      }
    }
    assert TurnTimes(shown.trace) == TurnTimes(s.trace);
  }

  lemma TurnIsPaid(s: State, peer: nat, id: string, role: Role, key: Key, now: int)
    requires Paid(s)
    ensures PaidFor(Show(s, TurnAsked(peer, id, role, key), now).trace,
                    s.spent.relays, Granted(s.spent.iceAll, "all", now))
  {
    var shown := Show(s, TurnAsked(peer, id, role, key), now);
    TimesShow(s, TurnAsked(peer, id, role, key), now);
    forall other ensures Within(RelayTimes(shown.trace, other), GrantsOf(s.spent.relays, other)) {
      assert RelayTimes(shown.trace, other) == RelayTimes(s.trace, other);
    }
    WithinBoth(TurnTimes(s.trace), GrantsOf(s.spent.iceAll, "all"), now);
  }

  // ---------------------------------------------------------------------------------------------
  // Every step pays

  ghost predicate Sound(c: Config, s: State, clock: int) {
    Metered(c.limits, s.spent, clock) && Paid(s)
  }

  lemma CloseIsFree(c: Config, s: State, peer: nat, code: CloseCode, now: int)
    requires Sound(c, s, now) && peer < |s.net.all|
    ensures Sound(c, Close(s, peer, code, now), now)
  {
    ShowIsFree(s, SocketClosed(peer, code), now);
  }

  lemma SendIsFree(c: Config, s: State, peer: nat, frame: ServerFrame, now: int)
    requires Sound(c, s, now) && !frame.Relayed?
    ensures Sound(c, Send(s, peer, frame, now), now)
  {
    ShowIsFree(s, Sent(peer, frame), now);
  }

  lemma RefuseIsFree(c: Config, s: State, peer: nat, now: int)
    requires Sound(c, s, now) && peer < |s.net.all|
    ensures Sound(c, RefuseFrame(s, peer, now), now)
  {
    SendIsFree(c, s, peer, Error(BadFrame, None), now);
    CloseIsFree(c, Send(s, peer, Error(BadFrame, None), now), peer, BadFrameClose, now);
  }

  lemma OnRelayPays(c: Config, s: State, peer: nat, id: string, to: Key, envelope: string, signature: string, now: int)
    requires c.limits.Valid() && Sound(c, s, now) && peer < |s.net.all| && s.net.KnowsHolder(to)
    ensures Sound(c, OnRelay(c, s, peer, id, to, envelope, signature, now), now)
  {
    var view := s.net.all[peer];
    if view.phase != Ready || view.publicKey.None? {
      RefuseIsFree(c, s, peer, now);
      return;
    }
    var key := view.publicKey.value;
    var wait := Wait(c.limits.relays, GrantsOf(s.spent.relays, key), now);
    if wait > 0 {
      SendIsFree(c, s, peer, RateLimited(PerKey, wait, Some(id)), now);
      return;
    }
    GrantKeeps(c.limits.relays, s.spent.relays, key, now);
    var taken := s.(spent := s.spent.(relays := Granted(s.spent.relays, key, now)));
    if to !in s.net.announced || s.net.all[s.net.announced[to]].role == view.role {
      RelayTakenKeeps(s, key, now);
      SendIsFree(c, taken, peer, Error(NotConnected, Some(id)), now);
    } else {
      RelayIsPaid(s, s.net.announced[to], key, envelope, signature, now);
      SendIsFree(c, Send(taken, s.net.announced[to], Relayed(key, envelope, signature), now), peer, Delivered(id), now);
    }
  }

  lemma OnIcePays(c: Config, s: State, peer: nat, id: string, now: int)
    requires c.limits.Valid() && Sound(c, s, now) && peer < |s.net.all|
    ensures Sound(c, OnIce(c, s, peer, id, now), now)
  {
    var view := s.net.all[peer];
    if view.phase != Ready || view.role.None? || view.publicKey.None? {
      RefuseIsFree(c, s, peer, now);
      return;
    }
    var wait := Wait(c.limits.icePerIp, GrantsOf(s.spent.icePerIp, view.ip), now);
    if wait > 0 {
      SendIsFree(c, s, peer, RateLimited(PerIp, wait, Some(id)), now);
      return;
    }
    GrantKeeps(c.limits.icePerIp, s.spent.icePerIp, view.ip, now);
    var perIp := s.(spent := s.spent.(icePerIp := Granted(s.spent.icePerIp, view.ip, now)));
    OnIceOfIpPays(c, perIp, peer, id, view.role.value, view.publicKey.value, now);
  }

  lemma OnIceOfIpPays(c: Config, s: State, peer: nat, id: string, role: Role, key: Key, now: int)
    requires c.limits.Valid() && Sound(c, s, now)
    ensures Sound(c, OnIceOfIp(c, s, peer, id, role, key, now), now)
  {
    var wait := Wait(c.limits.icePerKey, GrantsOf(s.spent.icePerKey, key), now);
    if wait > 0 {
      SendIsFree(c, s, peer, RateLimited(PerKey, wait, Some(id)), now);
      return;
    }
    GrantKeeps(c.limits.icePerKey, s.spent.icePerKey, key, now);
    var perKey := s.(spent := s.spent.(icePerKey := Granted(s.spent.icePerKey, key, now)));
    var waitAll := Wait(c.limits.iceAll, GrantsOf(s.spent.iceAll, "all"), now);
    if waitAll > 0 {
      SendIsFree(c, perKey, peer, RateLimited(PerIp, waitAll, Some(id)), now);
    } else {
      GrantKeeps(c.limits.iceAll, s.spent.iceAll, "all", now);
      TurnIsPaid(perKey, peer, id, role, key, now);
    }
  }

  lemma OnProvePays(c: Config, s: State, peer: nat, signature: string, now: int)
    requires c.limits.Valid() && Sound(c, s, now) && peer < |s.net.all| && s.Wf()
    ensures Sound(c, OnProve(c, s, peer, signature, now), now)
  {
    var view := s.net.all[peer];
    if view.phase != Challenged || view.role.None? || view.publicKey.None? || view.nonce.None? {
      RefuseIsFree(c, s, peer, now);
      return;
    }
    var key := view.publicKey.value;
    var claim := Claim(view.name, view.role.value, key, view.nonce.value);
    var passed := c.verify(key, claim, signature);
    var spentNonce := SetPeer(s, peer, view.(nonce := None));
    var checked := Show(spentNonce, Checked(peer, claim, signature, passed), now);
    ShowIsFree(spentNonce, Checked(peer, claim, signature, passed), now);
    if passed {
      OnProvenPays(c, checked, peer, key, now);
    } else {
      SendIsFree(c, checked, peer, Error(BadSignature, None), now);
      CloseIsFree(c, Send(checked, peer, Error(BadSignature, None), now), peer, BadSignatureClose, now);
    }
  }

  lemma OnProvenPays(c: Config, s: State, peer: nat, key: Key, now: int)
    requires c.limits.Valid() && Sound(c, s, now) && peer < |s.net.all| && s.net.KnowsHolder(key)
    ensures Sound(c, OnProven(c, s, peer, key, now), now)
  {
    var wait := Wait(c.limits.announcements, GrantsOf(s.spent.announcements, key), now);
    if wait > 0 {
      SendIsFree(c, s, peer, RateLimited(PerKey, wait, None), now);
      CloseIsFree(c, Send(s, peer, RateLimited(PerKey, wait, None), now), peer, RateLimitedClose, now);
      return;
    }
    GrantKeeps(c.limits.announcements, s.spent.announcements, key, now);
    var counted := s.(spent := s.spent.(announcements := Granted(s.spent.announcements, key, now)));
    if key in s.net.announced {
      var previous := s.net.announced[key];
      SendIsFree(c, counted, previous, Error(Replaced, None), now);
      CloseIsFree(c, Send(counted, previous, Error(Replaced, None), now), previous, ReplacedClose, now);
    }
    var replaced := Replace(counted, key, now);
    SendIsFree(c, replaced.(net := Listed(replaced.net, peer, key)), peer, Announced, now);
  }

  lemma OnHelloPays(c: Config, s: State, peer: nat, role: Role, key: Key, nonce: string, now: int)
    requires Sound(c, s, now) && peer < |s.net.all|
    ensures Sound(c, OnHello(s, peer, role, key, nonce, now), now)
  {
    var view := s.net.all[peer];
    if view.phase != New {
      RefuseIsFree(c, s, peer, now);
    } else {
      var challenged := view.(role := Some(role), publicKey := Some(key), nonce := Some(nonce), phase := Challenged);
      SendIsFree(c, SetPeer(s, peer, challenged), peer, Challenge(view.name, nonce), now);
    }
  }

  lemma OnFramePays(c: Config, s: State, peer: nat, frame: PeerFrame, nonce: string, now: int)
    requires c.limits.Valid() && s.Wf() && Sound(c, s, now) && peer < |s.net.all|
    ensures Sound(c, OnFrame(c, s, peer, frame, nonce, now), now)
  {
    match frame
    case Hello(role, key) => OnHelloPays(c, s, peer, role, key, nonce, now);
    case Prove(signature) => OnProvePays(c, s, peer, signature, now);
    case Relay(id, to, envelope, signature) => OnRelayPays(c, s, peer, id, to, envelope, signature, now);
    case Ice(id) => OnIcePays(c, s, peer, id, now);
  }

  lemma OnSizedPays(c: Config, s: State, peer: nat, message: Incoming, nonce: string, now: int)
    requires c.limits.Valid() && s.Wf() && Sound(c, s, now) && peer < |s.net.all|
    ensures Sound(c, OnSized(c, s, peer, message, nonce, now), now)
  {
    var ip := s.net.all[peer].ip;
    var wait := Wait(c.limits.frames, GrantsOf(s.spent.frames, ip), now);
    if wait > 0 {
      SendIsFree(c, s, peer, RateLimited(PerIp, wait, None), now);
      return;
    }
    GrantKeeps(c.limits.frames, s.spent.frames, ip, now);
    var counted := s.(spent := s.spent.(frames := Granted(s.spent.frames, ip, now)));
    if message.NotText? || message.frame.None? {
      RefuseIsFree(c, counted, peer, now);
    } else {
      OnFramePays(c, counted, peer, message.frame.value, nonce, now);
    }
  }

  lemma OnMessagePays(c: Config, s: State, peer: nat, message: Incoming, nonce: string, now: int)
    requires c.limits.Valid() && s.Wf() && Sound(c, s, now) && peer < |s.net.all|
    ensures Sound(c, OnMessage(c, s, peer, message, nonce, now), now)
  {
    if s.net.all[peer].phase != Closed {
      var heard := OnHeard(s, peer, now);
      if message.Text? && message.bytes > c.limits.maxMessageBytes {
        CloseIsFree(c, heard, peer, TooLarge, now);
      } else {
        OnSizedPays(c, heard, peer, message, nonce, now);
      }
    }
  }

  lemma SweepPeerIsFree(c: Config, s: State, peer: nat, now: int)
    requires Sound(c, s, now) && peer < |s.net.all|
    ensures Sound(c, SweepPeer(c, s, peer, now), now)
  {
    var view := s.net.all[peer];
    if Expired(c, view, now) {
      CloseIsFree(c, s, peer, Timeout, now);
    } else if now - view.lastPingAt >= c.limits.heartbeatMs {
      ShowIsFree(SetPeer(s, peer, view.(lastPingAt := now)), Pinged(peer), now);
    }
  }

  lemma {:induction false} SweepAllIsFree(c: Config, s: State, peers: seq<nat>, now: int)
    requires Sound(c, s, now) && InRange(s.net, peers)
    ensures Sound(c, SweepAll(c, s, peers, now), now)
  {
    if peers != [] {
      var n := |peers| - 1;
      SweepAllIsFree(c, s, peers[..n], now);
      SweepPeerIsFree(c, SweepAll(c, s, peers[..n], now), peers[n], now);
    }
  }

  lemma {:induction false} CloseAllIsFree(c: Config, s: State, peers: seq<nat>, now: int)
    requires Sound(c, s, now) && InRange(s.net, peers)
    ensures Sound(c, CloseAll(s, peers, now), now)
  {
    if peers != [] {
      var n := |peers| - 1;
      CloseAllIsFree(c, s, peers[..n], now);
      CloseIsFree(c, CloseAll(s, peers[..n], now), peers[n], GoingAway, now);
    }
  }

  lemma OnIceAnswerIsFree(c: Config, s: State, index: nat, grant: Option<string>, now: int)
    requires Sound(c, s, now) && index < |s.suspended| && s.suspended[index].peer < |s.net.all|
    ensures Sound(c, OnIceAnswer(s, index, grant, now), now)
  {
    var Suspended(peer, id) := s.suspended[index];
    var rest := s.(suspended := s.suspended[..index] + s.suspended[index + 1..]);
    if s.net.all[peer].phase == Ready {
      SendIsFree(c, rest, peer, if grant.Some? then IceServers(id, grant.value) else Error(Internal, Some(id)), now);
    }
  }

  /** Whatever the step, everything relayed and asked after it is paid for when it was before. */
  lemma StepPays(c: Config, s: State, t: Timed, clock: int)
    requires c.limits.Valid() && s.Wf() && Sound(c, s, clock) && clock <= t.at
    ensures Sound(c, Do(c, s, t), t.at)
  {
    MeteredLater(c.limits, s.spent, clock, t.at);
    if Enabled(s, t.step) {
      match t.step
      case Admit(address) =>
        if AdmitWait(c, s, address, t.at) <= 0 {
          GrantKeeps(c.limits.connections, s.spent.connections, c.addressKey(address), t.at);
        }
      case Open(address, name) =>
      case Message(peer, message, nonce) => OnMessagePays(c, s, peer, message, nonce, t.at);
      case Heard(peer) =>
      case SocketGone(peer) =>
      case Sweep => SweepAllIsFree(c, s, s.net.live, t.at);
      case GoAway => CloseAllIsFree(c, s, s.net.live, t.at);
      case IceAnswer(index, grant) => OnIceAnswerIsFree(c, s, index, grant, t.at);
    }
  }
}
