/**
 What becomes of one peer: it moves from new over challenged and ready to closed, has its
 signature checked at most once, and is ready only after that check passed over its own
 name, role, key and the nonce it was challenged with.
 */
module BrokerLifecycle {
  import opened Options
  import opened RateLimit
  import opened BrokerModel
  import opened BrokerTables

  /** One step of a peer: it stays, goes on by one phase, or closes; what it said about itself stays said. */
  predicate Moves(before: PeerView, after: PeerView) {
    && after.ip == before.ip && after.name == before.name && after.openedAt == before.openedAt
    && (after.phase == before.phase || after.phase == Closed
        || (before.phase == New && after.phase == Challenged)
        || (before.phase == Challenged && after.phase == Ready))
    && (before.phase != New || after.phase in {New, Closed} ==>
          after.role == before.role && after.publicKey == before.publicKey)
  }

  // ---------------------------------------------------------------------------------------------
  // Signature checks in the trace

  /** How often a signature of `peer` was checked. */
  function ChecksOf(trace: seq<Stamped>, peer: nat): nat {
    if trace == [] then 0
    else
      var last := trace[|trace| - 1].effect;
      ChecksOf(trace[..|trace| - 1], peer) + if last.Checked? && last.peer == peer then 1 else 0
  }

  ghost predicate Shown(trace: seq<Stamped>, effect: Effect) {
    exists i :: 0 <= i < |trace| && trace[i].effect == effect
  }

  /** The trace holds a challenge with this nonce and a passed check of a signature over it. */
  ghost predicate Answered(c: Config, trace: seq<Stamped>, peer: nat, claim: Claim, signature: string) {
    && c.verify(claim.publicKey, claim, signature)
    && Shown(trace, Checked(peer, claim, signature, true))
    && Shown(trace, Sent(peer, Challenge(claim.name, claim.nonce)))
  }

  /** The peer proved that it holds its key. */
  ghost predicate Vouched(c: Config, trace: seq<Stamped>, peer: nat, view: PeerView) {
    && view.role.Some? && view.publicKey.Some?
    && exists nonce, signature ::
         Answered(c, trace, peer, Claim(view.name, view.role.value, view.publicKey.value, nonce), signature)
  }

  ghost predicate Honest(c: Config, trace: seq<Stamped>, peer: nat, view: PeerView) {
    match view.phase
    case New => ChecksOf(trace, peer) == 0
    case Challenged =>
      && ChecksOf(trace, peer) == 0
      && view.nonce.Some?
      && Shown(trace, Sent(peer, Challenge(view.name, view.nonce.value)))
    case Ready => ChecksOf(trace, peer) == 1 && Vouched(c, trace, peer, view)
    case Closed => ChecksOf(trace, peer) <= 1
  }

  ghost predicate AllHonest(c: Config, s: State) {
    && (forall peer: nat :: peer < |s.net.all| ==> Honest(c, s.trace, peer, s.net.all[peer]))
    && (forall peer: nat :: |s.net.all| <= peer ==> ChecksOf(s.trace, peer) == 0)
  }

  // ---------------------------------------------------------------------------------------------
  // What a step may do to the peers

  /** `s` led to `after` while only `peer` may have been checked or changed other than by closing. */
  ghost predicate Progress(s: State, after: State) {
    && |s.net.all| <= |after.net.all|
    && s.trace <= after.trace
    && (forall peer: nat :: peer < |s.net.all| ==> Moves(s.net.all[peer], after.net.all[peer]))
  }

  lemma ShownLater(trace: seq<Stamped>, more: seq<Stamped>, effect: Effect)
    requires trace <= more && Shown(trace, effect)
    ensures Shown(more, effect)
  {
    var i :| 0 <= i < |trace| && trace[i].effect == effect;
    assert more[i].effect == effect;
  }

  lemma VouchedLater(c: Config, trace: seq<Stamped>, more: seq<Stamped>, peer: nat, view: PeerView)
    requires trace <= more && Vouched(c, trace, peer, view)
    ensures Vouched(c, more, peer, view)
  {
    var nonce, signature :|
      Answered(c, trace, peer, Claim(view.name, view.role.value, view.publicKey.value, nonce), signature);
    var claim := Claim(view.name, view.role.value, view.publicKey.value, nonce);
    ShownLater(trace, more, Checked(peer, claim, signature, true));
    ShownLater(trace, more, Sent(peer, Challenge(claim.name, claim.nonce)));
    assert Answered(c, more, peer, claim, signature);
  }

  /** The trace grew without a check. */
  ghost predicate Unchecked(trace: seq<Stamped>, more: seq<Stamped>) {
    trace <= more && forall i :: |trace| <= i < |more| ==> !more[i].effect.Checked?
  }

  lemma {:induction false} UncheckedCounts(trace: seq<Stamped>, more: seq<Stamped>, peer: nat)
    requires Unchecked(trace, more)
    ensures ChecksOf(more, peer) == ChecksOf(trace, peer)
    decreases |more|
  {
    if |trace| < |more| {
      UncheckedCounts(trace, more[..|more| - 1], peer);
    } else {
      assert more == trace;
    }
  }

  /** Peers that stay as they are or close stay honest while nothing is checked. */
  ghost predicate Quiet(s: State, after: State) {
    && |after.net.all| == |s.net.all|
    && Unchecked(s.trace, after.trace)
    && forall peer: nat :: peer < |s.net.all| ==> StaysOrCloses(s.net.all[peer], after.net.all[peer])
  }

  predicate StaysOrCloses(before: PeerView, after: PeerView) {
    || after == before.(lastHeardAt := after.lastHeardAt, lastPingAt := after.lastPingAt)
    || after == before.(phase := Closed, lastHeardAt := after.lastHeardAt, lastPingAt := after.lastPingAt)
  }

  lemma QuietTwice(s: State, mid: State, after: State)
    requires Quiet(s, mid) && Quiet(mid, after)
    ensures Quiet(s, after)
  {
  }

  lemma QuietIsHonest(c: Config, s: State, after: State)
    requires AllHonest(c, s) && Quiet(s, after)
    ensures AllHonest(c, after)
  {
    forall peer: nat ensures ChecksOf(after.trace, peer) == ChecksOf(s.trace, peer) {
      UncheckedCounts(s.trace, after.trace, peer);
    }
    forall peer: nat | peer < |s.net.all| ensures Honest(c, after.trace, peer, after.net.all[peer]) {
      HonestLater(c, s.trace, after.trace, peer, s.net.all[peer], after.net.all[peer]);
    }
  }

  lemma HonestLater(c: Config, trace: seq<Stamped>, more: seq<Stamped>, peer: nat, before: PeerView, after: PeerView)
    requires Honest(c, trace, peer, before) && trace <= more && ChecksOf(more, peer) == ChecksOf(trace, peer)
    requires StaysOrCloses(before, after)
    ensures Honest(c, more, peer, after)
  {
    if after.phase == Challenged {
      ShownLater(trace, more, Sent(peer, Challenge(before.name, before.nonce.value)));
    } else if after.phase == Ready {
      VouchedLater(c, trace, more, peer, before);
      var nonce, signature :|
        Answered(c, more, peer, Claim(before.name, before.role.value, before.publicKey.value, nonce), signature);
      assert Answered(c, more, peer, Claim(after.name, after.role.value, after.publicKey.value, nonce), signature);
    }
  }

  // ---------------------------------------------------------------------------------------------
  // Most steps are quiet

  lemma ShowIsQuiet(s: State, effect: Effect, now: int)
    requires !effect.Checked?
    ensures Quiet(s, Show(s, effect, now))
  {
  }

  lemma CloseIsQuiet(s: State, peer: nat, code: CloseCode, now: int)
    requires peer < |s.net.all|
    ensures Quiet(s, Close(s, peer, code, now))
  {
  }

  lemma RefuseIsQuiet(s: State, peer: nat, now: int)
    requires peer < |s.net.all|
    ensures Quiet(s, RefuseFrame(s, peer, now))
  {
    var said := Send(s, peer, Error(BadFrame, None), now);
    ShowIsQuiet(s, Sent(peer, Error(BadFrame, None)), now);
    CloseIsQuiet(said, peer, BadFrameClose, now);
    QuietTwice(s, said, Close(said, peer, BadFrameClose, now));
  }

  lemma OnRelayIsQuiet(c: Config, s: State, peer: nat, id: string, to: Key, envelope: string, signature: string,
          now: int)
    requires peer < |s.net.all| && s.net.KnowsHolder(to)
    ensures Quiet(s, OnRelay(c, s, peer, id, to, envelope, signature, now))
  {
    if s.net.all[peer].phase != Ready || s.net.all[peer].publicKey.None? {
      RefuseIsQuiet(s, peer, now);
    } else {
      OnRelayNet(c, s, peer, id, to, envelope, signature, now);
    }
  }

  lemma OnIceIsQuiet(c: Config, s: State, peer: nat, id: string, now: int)
    requires peer < |s.net.all|
    ensures Quiet(s, OnIce(c, s, peer, id, now))
  {
    var view := s.net.all[peer];
    if view.phase != Ready || view.role.None? || view.publicKey.None? {
      RefuseIsQuiet(s, peer, now);
    } else {
      OnIceNet(c, s, peer, id, now);
    }
  }

  lemma SweepPeerIsQuiet(c: Config, s: State, peer: nat, now: int)
    requires peer < |s.net.all|
    ensures Quiet(s, SweepPeer(c, s, peer, now))
  {
    CloseIsQuiet(s, peer, Timeout, now);
  }

  lemma {:induction false} SweepAllIsQuiet(c: Config, s: State, peers: seq<nat>, now: int)
    requires InRange(s.net, peers)
    ensures Quiet(s, SweepAll(c, s, peers, now))
  {
    if peers != [] {
      var n := |peers| - 1;
      SweepAllIsQuiet(c, s, peers[..n], now);
      SweepPeerIsQuiet(c, SweepAll(c, s, peers[..n], now), peers[n], now);
      QuietTwice(s, SweepAll(c, s, peers[..n], now), SweepAll(c, s, peers, now));
    }
  }

  lemma {:induction false} CloseAllIsQuiet(s: State, peers: seq<nat>, now: int)
    requires InRange(s.net, peers)
    ensures Quiet(s, CloseAll(s, peers, now))
  {
    if peers != [] {
      var n := |peers| - 1;
      CloseAllIsQuiet(s, peers[..n], now);
      CloseIsQuiet(CloseAll(s, peers[..n], now), peers[n], GoingAway, now);
      QuietTwice(s, CloseAll(s, peers[..n], now), CloseAll(s, peers, now));
    }
  }

  // ---------------------------------------------------------------------------------------------
  // The two frames that are not

  /** Everything but `peer` stays or closes, and `peer` moves as the lifecycle allows. */
  ghost predicate Advances(c: Config, s: State, after: State, peer: nat) {
    && |after.net.all| == |s.net.all| && peer < |s.net.all|
    && s.trace <= after.trace
    && Moves(s.net.all[peer], after.net.all[peer])
    && Honest(c, after.trace, peer, after.net.all[peer])
    && (forall other: nat :: other != peer ==> ChecksOf(after.trace, other) == ChecksOf(s.trace, other))
    && (forall other: nat :: other < |s.net.all| && other != peer ==>
          StaysOrCloses(s.net.all[other], after.net.all[other]))
  }

  lemma AdvanceIsHonest(c: Config, s: State, after: State, peer: nat)
    requires AllHonest(c, s) && Advances(c, s, after, peer)
    ensures AllHonest(c, after)
  {
    forall other: nat | other < |s.net.all| && other != peer
      ensures Honest(c, after.trace, other, after.net.all[other])
    {
      HonestLater(c, s.trace, after.trace, other, s.net.all[other], after.net.all[other]);
    }
  }

  lemma QuietAdvances(c: Config, s: State, after: State, peer: nat)
    requires AllHonest(c, s) && Quiet(s, after) && peer < |s.net.all|
    ensures Advances(c, s, after, peer)
  {
    QuietIsHonest(c, s, after);
    forall other: nat ensures ChecksOf(after.trace, other) == ChecksOf(s.trace, other) {
      UncheckedCounts(s.trace, after.trace, other);
    }
  }

  lemma OnHelloAdvances(c: Config, s: State, peer: nat, role: Role, key: Key, nonce: string, now: int)
    requires AllHonest(c, s) && peer < |s.net.all|
    ensures Advances(c, s, OnHello(s, peer, role, key, nonce, now), peer)
  {
    var after := OnHello(s, peer, role, key, nonce, now);
    var view := s.net.all[peer];
    if view.phase != New {
      RefuseIsQuiet(s, peer, now);
      QuietAdvances(c, s, after, peer);
    } else {
      forall other: nat ensures ChecksOf(after.trace, other) == ChecksOf(s.trace, other) {
        UncheckedCounts(s.trace, after.trace, other);
      }
      assert after.trace[|s.trace|].effect == Sent(peer, Challenge(view.name, nonce));
    }
  }

  lemma CheckCounts(s: State, peer: nat, claim: Claim, signature: string, passed: bool, now: int, other: nat)
    ensures ChecksOf(Show(s, Checked(peer, claim, signature, passed), now).trace, other)
         == ChecksOf(s.trace, other) + if other == peer then 1 else 0
  {
    assert Show(s, Checked(peer, claim, signature, passed), now).trace[..|s.trace|] == s.trace;
  }

  lemma OnProveAdvances(c: Config, s: State, peer: nat, signature: string, now: int)
    requires s.Wf() && Tables(s.net) && AllHonest(c, s) && peer < |s.net.all|
    ensures Advances(c, s, OnProve(c, s, peer, signature, now), peer)
  {
    var after := OnProve(c, s, peer, signature, now);
    var view := s.net.all[peer];
    if view.phase != Challenged {
      RefuseIsQuiet(s, peer, now);
      QuietAdvances(c, s, after, peer);
    } else {
      assert Honest(c, s.trace, peer, view);
      var claim := Claim(view.name, view.role.value, view.publicKey.value, view.nonce.value);
      var passed := c.verify(claim.publicKey, claim, signature);
      var checked := Show(SetPeer(s, peer, view.(nonce := None)), Checked(peer, claim, signature, passed), now);
      forall other: nat
        ensures ChecksOf(checked.trace, other) == ChecksOf(s.trace, other) + if other == peer then 1 else 0
      {
        CheckCounts(SetPeer(s, peer, view.(nonce := None)), peer, claim, signature, passed, now, other);
      }
      if passed {
        assert checked.trace[|s.trace|].effect == Checked(peer, claim, signature, true);
        ShownLater(s.trace, checked.trace, Sent(peer, Challenge(claim.name, claim.nonce)));
        assert Answered(c, checked.trace, peer, claim, signature);
        OnProvenAdvances(c, s, checked, peer, claim.publicKey, now);
      } else {
        BadSignatureAdvances(c, s, checked, peer, now);
      }
    }
  }

  /** What `OnProve` did to `s` before it decides. */
  ghost predicate JustChecked(s: State, checked: State, peer: nat) {
    && peer < |s.net.all| && s.net.all[peer].phase == Challenged
    && checked.net == s.net.Set(peer, s.net.all[peer].(nonce := None))
    && s.trace <= checked.trace
    && forall other: nat ::
         ChecksOf(checked.trace, other) == ChecksOf(s.trace, other) + if other == peer then 1 else 0
  }

  lemma BadSignatureAdvances(c: Config, s: State, checked: State, peer: nat, now: int)
    requires LiveAgrees(s.net) && AllHonest(c, s) && JustChecked(s, checked, peer)
    ensures var said := Send(checked, peer, Error(BadSignature, None), now);
            Advances(c, s, Close(said, peer, BadSignatureClose, now), peer)
  {
    var said := Send(checked, peer, Error(BadSignature, None), now);
    ClosedAdvances(c, s, checked, Close(said, peer, BadSignatureClose, now), peer);
  }

  lemma ClosedAdvances(c: Config, s: State, checked: State, after: State, peer: nat)
    requires LiveAgrees(s.net) && AllHonest(c, s) && JustChecked(s, checked, peer)
    requires Unchecked(checked.trace, after.trace) && after.net == Gone(checked.net, peer)
    ensures Advances(c, s, after, peer)
  {
    assert Honest(c, s.trace, peer, s.net.all[peer]);
    forall other: nat ensures ChecksOf(after.trace, other) == ChecksOf(checked.trace, other) {
      UncheckedCounts(checked.trace, after.trace, other);
    }
  }

  lemma OnProvenAdvances(c: Config, s: State, checked: State, peer: nat, key: Key, now: int)
    requires Tables(s.net) && AllHonest(c, s) && JustChecked(s, checked, peer) && checked.net.KnowsHolder(key)
    requires Vouched(c, checked.trace, peer, s.net.all[peer])
    ensures Advances(c, s, OnProven(c, checked, peer, key, now), peer)
  {
    var wait := Wait(c.limits.announcements, GrantsOf(checked.spent.announcements, key), now);
    if wait > 0 {
      ClosedAdvances(c, s, checked, OnProven(c, checked, peer, key, now), peer);
    } else {
      var counted := checked.(spent := checked.spent.(announcements := Granted(checked.spent.announcements, key, now)));
      ReplaceSparesTheChallenged(checked, counted, peer, key, now);
      AnnounceAdvances(c, s, checked, Replace(counted, key, now), peer, key, now);
    }
  }

  lemma AnnounceAdvances(c: Config, s: State, checked: State, replaced: State, peer: nat, key: Key, now: int)
    requires AllHonest(c, s) && JustChecked(s, checked, peer) && Quiet(checked, replaced)
    requires replaced.net.all[peer] == checked.net.all[peer]
    requires Vouched(c, checked.trace, peer, s.net.all[peer])
    ensures Advances(c, s, Announce(replaced, peer, key, now), peer)
  {
    var after := Announce(replaced, peer, key, now);
    assert Honest(c, s.trace, peer, s.net.all[peer]);
    assert Unchecked(checked.trace, after.trace);
    forall other: nat ensures ChecksOf(after.trace, other) == ChecksOf(checked.trace, other) {
      UncheckedCounts(checked.trace, after.trace, other);
    }
    ReadyIsVouched(c, checked.trace, after.trace, peer, s.net.all[peer], after.net.all[peer]);
  }

  lemma ReadyIsVouched(c: Config, trace: seq<Stamped>, more: seq<Stamped>, peer: nat, before: PeerView, after: PeerView)
    requires Vouched(c, trace, peer, before) && trace <= more
    requires after.name == before.name && after.role == before.role && after.publicKey == before.publicKey
    ensures Vouched(c, more, peer, after)
  {
    VouchedLater(c, trace, more, peer, before);
    var nonce, signature :|
      Answered(c, more, peer, Claim(before.name, before.role.value, before.publicKey.value, nonce), signature);
    assert Answered(c, more, peer, Claim(after.name, after.role.value, after.publicKey.value, nonce), signature);
  }

  lemma ReplaceSparesTheChallenged(checked: State, counted: State, peer: nat, key: Key, now: int)
    requires checked.net.KnowsHolder(key) && counted.net == checked.net && counted.trace == checked.trace
    requires peer < |checked.net.all| && (key in checked.net.announced ==> checked.net.announced[key] != peer)
    ensures var replaced := Replace(counted, key, now);
            && Quiet(checked, replaced)
            && replaced.net.all[peer] == checked.net.all[peer]
  {
    if key in checked.net.announced {
      var previous := checked.net.announced[key];
      var said := Send(counted, previous, Error(Replaced, None), now);
      CloseIsQuiet(said, previous, ReplacedClose, now);
      ShowIsQuiet(counted, Sent(previous, Error(Replaced, None)), now);
      QuietTwice(counted, said, Replace(counted, key, now));
    }
  }

  // ---------------------------------------------------------------------------------------------
  // Every step

  lemma OnFrameAdvances(c: Config, s: State, peer: nat, frame: PeerFrame, nonce: string, now: int)
    requires s.Wf() && Tables(s.net) && AllHonest(c, s) && peer < |s.net.all|
    ensures Advances(c, s, OnFrame(c, s, peer, frame, nonce, now), peer)
  {
    match frame
    case Hello(role, key) => OnHelloAdvances(c, s, peer, role, key, nonce, now);
    case Prove(signature) => OnProveAdvances(c, s, peer, signature, now);
    case Relay(id, to, envelope, signature) =>
      OnRelayIsQuiet(c, s, peer, id, to, envelope, signature, now);
      QuietAdvances(c, s, OnFrame(c, s, peer, frame, nonce, now), peer);
    case Ice(id) =>
      OnIceIsQuiet(c, s, peer, id, now);
      QuietAdvances(c, s, OnFrame(c, s, peer, frame, nonce, now), peer);
  }

  lemma OnSizedAdvances(c: Config, s: State, peer: nat, message: Incoming, nonce: string, now: int)
    requires s.Wf() && Tables(s.net) && AllHonest(c, s) && peer < |s.net.all|
    ensures Advances(c, s, OnSized(c, s, peer, message, nonce, now), peer)
  {
    var ip := s.net.all[peer].ip;
    var wait := Wait(c.limits.frames, GrantsOf(s.spent.frames, ip), now);
    if wait > 0 {
      ShowIsQuiet(s, Sent(peer, RateLimited(PerIp, wait, None)), now);
      QuietAdvances(c, s, Send(s, peer, RateLimited(PerIp, wait, None), now), peer);
    } else {
      var counted := s.(spent := s.spent.(frames := Granted(s.spent.frames, ip, now)));
      if message.NotText? || message.frame.None? {
        RefuseIsQuiet(counted, peer, now);
        QuietAdvances(c, counted, RefuseFrame(counted, peer, now), peer);
      } else {
        OnFrameAdvances(c, counted, peer, message.frame.value, nonce, now);
      }
    }
  }

  /** Hearing from a peer before handling its message changes no phase. */
  lemma HeardThenAdvances(c: Config, s: State, heard: State, after: State, peer: nat, now: int)
    requires peer < |s.net.all| && heard == OnHeard(s, peer, now) && Advances(c, heard, after, peer)
    ensures Advances(c, s, after, peer)
  {
  }

  lemma OnMessageAdvances(c: Config, s: State, peer: nat, message: Incoming, nonce: string, now: int)
    requires s.Wf() && Tables(s.net) && AllHonest(c, s) && peer < |s.net.all|
    ensures Advances(c, s, OnMessage(c, s, peer, message, nonce, now), peer)
  {
    var after := OnMessage(c, s, peer, message, nonce, now);
    if s.net.all[peer].phase == Closed {
      QuietAdvances(c, s, s, peer);
    } else {
      var heard := OnHeard(s, peer, now);
      HeardKeeps(s.net, peer, now);
      QuietIsHonest(c, s, heard);
      if message.Text? && message.bytes > c.limits.maxMessageBytes {
        CloseIsQuiet(heard, peer, TooLarge, now);
        QuietAdvances(c, heard, after, peer);
      } else {
        OnSizedAdvances(c, heard, peer, message, nonce, now);
      }
      HeardThenAdvances(c, s, heard, after, peer, now);
    }
  }

  lemma QuietMoves(s: State, after: State)
    requires Quiet(s, after)
    ensures Progress(s, after)
  {
  }

  lemma OpenIsHonest(c: Config, s: State, address: string, name: string, now: int)
    requires AllHonest(c, s)
    ensures AllHonest(c, OnOpen(c, s, address, name, now)) && Progress(s, OnOpen(c, s, address, name, now))
  {
  }

  /** Whatever the step, peers move along the lifecycle, and stay vouched for by the trace. */
  lemma StepAdvances(c: Config, s: State, t: Timed)
    requires s.Wf() && Tables(s.net) && AllHonest(c, s)
    ensures Progress(s, Do(c, s, t)) && AllHonest(c, Do(c, s, t))
    ensures !t.step.Open? ==> |Do(c, s, t).net.all| == |s.net.all|
  {
    if Enabled(s, t.step) {
      match t.step
      case Open(address, name) => OpenIsHonest(c, s, address, name, t.at);
      case Message(peer, message, nonce) =>
        OnMessageAdvances(c, s, peer, message, nonce, t.at);
        AdvanceIsHonest(c, s, Do(c, s, t), peer);
      case _ => StepIsQuiet(c, s, t);
    }
  }

  lemma StepIsQuiet(c: Config, s: State, t: Timed)
    requires s.Wf() && AllHonest(c, s) && Enabled(s, t.step) && !t.step.Open? && !t.step.Message?
    ensures Progress(s, Do(c, s, t)) && AllHonest(c, Do(c, s, t))
    ensures |Do(c, s, t).net.all| == |s.net.all|
  {
    match t.step {
      case Sweep => SweepAllIsQuiet(c, s, s.net.live, t.at);
      case GoAway => CloseAllIsQuiet(s, s.net.live, t.at);
      case IceAnswer(index, grant) => assert OnIceAnswer(s, index, grant, t.at).net == s.net;
      case _ =>
    }
    QuietIsHonest(c, s, Do(c, s, t));
    QuietMoves(s, Do(c, s, t));
  }
}
