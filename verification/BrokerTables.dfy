/**
 The three tables of the broker agree with the peers in every state: `live` holds exactly the
 peers that are not closed, `announced` exactly the ready ones under their own key, and
 `socketsPerIp` counts the live peers of each address.
 */
module BrokerTables {
  import opened Options
  import opened RateLimit
  import opened BrokerModel

  predicate Increasing(s: seq<nat>) {
    forall i, j :: 0 <= i < j < |s| ==> s[i] < s[j]
  }

  /** How many of `peers` count against `ip`. */
  function SocketsOn(all: seq<PeerView>, peers: seq<nat>, ip: string): nat {
    if peers == [] then 0
    else (if peers[0] < |all| && all[peers[0]].ip == ip then 1 else 0) + SocketsOn(all, peers[1..], ip)
  }

  ghost predicate LiveAgrees(n: Net) {
    && Increasing(n.live)
    && InRange(n, n.live)
    && (forall peer: nat :: peer < |n.all| ==> (peer in n.live <==> n.all[peer].phase != Closed))
  }

  ghost predicate AnnouncedAgrees(n: Net) {
    && (forall key :: key in n.announced ==>
          n.announced[key] < |n.all| && n.all[n.announced[key]].phase == Ready
          && n.all[n.announced[key]].publicKey == Some(key))
    && (forall peer: nat :: peer < |n.all| && n.all[peer].phase == Ready ==>
          && n.all[peer].publicKey.Some?
          && n.all[peer].publicKey.value in n.announced
          && n.announced[n.all[peer].publicKey.value] == peer)
  }

  ghost predicate CountsAgree(n: Net) {
    forall ip :: CountAgrees(n, ip)
  }

  ghost predicate CountAgrees(n: Net, ip: string) {
    && CountAt(n.socketsPerIp, ip, 0) == SocketsOn(n.all, n.live, ip)
    && (ip in n.socketsPerIp ==> n.socketsPerIp[ip] > 0)
  }

  /** A peer that said hello has a role and a key. */
  ghost predicate Shaped(n: Net) {
    forall peer: nat :: peer < |n.all| && n.all[peer].phase in {Challenged, Ready} ==>
      n.all[peer].role.Some? && n.all[peer].publicKey.Some?
  }

  ghost predicate Tables(n: Net) {
    LiveAgrees(n) && AnnouncedAgrees(n) && CountsAgree(n) && Shaped(n)
  }

  // ---------------------------------------------------------------------------------------------
  // Counting

  lemma {:induction false} SocketsOnAppend(all: seq<PeerView>, peers: seq<nat>, peer: nat, ip: string)
    ensures SocketsOn(all, peers + [peer], ip)
         == SocketsOn(all, peers, ip) + if peer < |all| && all[peer].ip == ip then 1 else 0
  {
    if peers != [] {
      SocketsOnAppend(all, peers[1..], peer, ip);
      assert (peers + [peer])[1..] == peers[1..] + [peer];
    }
  }

  /** Only the addresses of the peers matter. */
  lemma {:induction false} SocketsOnSame(all: seq<PeerView>, after: seq<PeerView>, peers: seq<nat>, ip: string)
    requires forall i :: 0 <= i < |peers| ==>
               peers[i] < |all| && peers[i] < |after| && all[peers[i]].ip == after[peers[i]].ip
    ensures SocketsOn(all, peers, ip) == SocketsOn(after, peers, ip)
  {
    if peers != [] {
      SocketsOnSame(all, after, peers[1..], ip);
    }
  }

  lemma {:induction false} WithoutAbsent(peers: seq<nat>, peer: nat)
    requires peer !in peers
    ensures Without(peers, peer) == peers
  {
    if peers != [] {
      WithoutAbsent(peers[1..], peer);
    }
  }

  /** Taking a live peer out leaves one socket fewer on its address. */
  lemma {:induction false} SocketsOnWithout(all: seq<PeerView>, peers: seq<nat>, peer: nat, ip: string)
    requires Increasing(peers) && peer in peers && peer < |all|
    ensures SocketsOn(all, Without(peers, peer), ip)
         == SocketsOn(all, peers, ip) - if all[peer].ip == ip then 1 else 0
  {
    if peers[0] == peer {
      WithoutAbsent(peers[1..], peer);
    } else {
      SocketsOnWithout(all, peers[1..], peer, ip);
      assert Without(peers, peer)[1..] == Without(peers[1..], peer);
    }
  }

  lemma {:induction false} WithoutIncreases(peers: seq<nat>, peer: nat)
    requires Increasing(peers)
    ensures Increasing(Without(peers, peer))
  {
    if peers != [] {
      WithoutIncreases(peers[1..], peer);
      var rest := Without(peers[1..], peer);
      forall i | 0 <= i < |rest| ensures peers[0] < rest[i] {
        assert rest[i] in peers[1..];
      }
    }
  }

  lemma {:induction false} SocketsOnPositive(all: seq<PeerView>, peers: seq<nat>, peer: nat)
    requires peer in peers && peer < |all|
    ensures SocketsOn(all, peers, all[peer].ip) > 0
  {
    if peers[0] != peer {
      SocketsOnPositive(all, peers[1..], peer);
    }
  }

  // ---------------------------------------------------------------------------------------------
  // The pieces keep the tables

  lemma SetKeeps(n: Net, peer: nat, view: PeerView)
    requires Tables(n) && peer < |n.all| && view.ip == n.all[peer].ip
    requires (view.phase == Closed) == (n.all[peer].phase == Closed)
    requires (view.phase == Ready) == (n.all[peer].phase == Ready)
    requires view.phase == Ready ==> view.publicKey == n.all[peer].publicKey && view.role.Some?
    requires view.phase == Challenged ==> view.role.Some? && view.publicKey.Some?
    ensures Tables(n.Set(peer, view))
  {
    var after := n.Set(peer, view);
    forall ip ensures CountAgrees(after, ip) {
      assert CountAgrees(n, ip);
      SocketsOnSame(n.all, after.all, n.live, ip);
    }
  }

  lemma HeardKeeps(n: Net, peer: nat, now: int)
    requires Tables(n) && peer < |n.all|
    ensures Tables(n.Set(peer, n.all[peer].(lastHeardAt := now)))
  {
    SetKeeps(n, peer, n.all[peer].(lastHeardAt := now));
  }

  lemma GoneKeeps(n: Net, peer: nat)
    requires Tables(n) && peer < |n.all|
    ensures Tables(Gone(n, peer))
  {
    if peer in n.live {
      UnlistedLive(n, peer);
      UnlistedAnnounced(n, peer);
      UnlistedCounts(n, peer);
    }
  }

  lemma UnlistedLive(n: Net, peer: nat)
    requires LiveAgrees(n) && peer in n.live
    ensures LiveAgrees(Unlisted(n, peer))
  {
    var after := Unlisted(n, peer);
    WithoutIncreases(n.live, peer);
    forall other: nat | other < |n.all|
      ensures other in after.live <==> after.all[other].phase != Closed
    {
      if other in n.live && other != peer {
        var i :| 0 <= i < |n.live| && n.live[i] == other;
        assert n.live[i] in after.live;
      }
    }
  }

  lemma UnlistedAnnounced(n: Net, peer: nat)
    requires AnnouncedAgrees(n) && Shaped(n) && peer < |n.all|
    ensures AnnouncedAgrees(Unlisted(n, peer)) && Shaped(Unlisted(n, peer))
  {
  }

  lemma UnlistedCounts(n: Net, peer: nat)
    requires LiveAgrees(n) && CountsAgree(n) && peer in n.live
    ensures CountsAgree(Unlisted(n, peer))
  {
    var after := Unlisted(n, peer);
    forall ip ensures CountAgrees(after, ip) {
      assert CountAgrees(n, ip);
      SocketsOnWithout(n.all, n.live, peer, ip);
      SocketsOnPositive(n.all, n.live, peer);
      SocketsOnSame(n.all, after.all, after.live, ip);
    }
  }

  /** What a closing socket changes besides its own peer: at most its own entry in `announced`. */
  lemma GoneFrame(n: Net, peer: nat)
    requires Tables(n) && peer < |n.all|
    ensures Gone(n, peer).all[peer].phase == Closed && |Gone(n, peer).all| == |n.all|
    ensures forall other: nat :: other < |n.all| && other != peer ==> Gone(n, peer).all[other] == n.all[other]
    ensures forall key :: key in Gone(n, peer).announced <==> key in n.announced && n.announced[key] != peer
    ensures forall key :: key in Gone(n, peer).announced ==> Gone(n, peer).announced[key] == n.announced[key]
  {
  }

  lemma ListedKeeps(n: Net, peer: nat, key: Key)
    requires Tables(n) && peer < |n.all| && key !in n.announced
    requires n.all[peer].phase == Challenged && n.all[peer].publicKey == Some(key)
    ensures Tables(Listed(n, peer, key))
  {
    var after := Listed(n, peer, key);
    forall ip ensures CountAgrees(after, ip) {
      assert CountAgrees(n, ip);
      SocketsOnSame(n.all, after.all, n.live, ip);
    }
  }

  lemma OpenedKeeps(n: Net, ip: string, name: string, now: int)
    requires Tables(n)
    ensures Tables(Opened(n, ip, name, now))
  {
    OpenedCounts(n, ip, name, now);
    OpenedLive(n, ip, name, now);
  }

  lemma OpenedCounts(n: Net, ip: string, name: string, now: int)
    requires LiveAgrees(n) && CountsAgree(n)
    ensures CountsAgree(Opened(n, ip, name, now))
  {
    var after := Opened(n, ip, name, now);
    forall other ensures CountAgrees(after, other) {
      assert CountAgrees(n, other);
      SocketsOnSame(n.all, after.all, n.live, other);
      SocketsOnAppend(after.all, n.live, |n.all|, other);
    }
  }

  lemma OpenedLive(n: Net, ip: string, name: string, now: int)
    requires LiveAgrees(n)
    ensures LiveAgrees(Opened(n, ip, name, now))
  {
    var after := Opened(n, ip, name, now);
    forall peer: nat | peer < |after.all| ensures peer in after.live <==> after.all[peer].phase != Closed {
      if peer < |n.all| {
        assert peer in after.live <==> peer in n.live;
      } else {
        assert after.live[|n.live|] == peer;
      }
    }
  }

  // ---------------------------------------------------------------------------------------------
  // Every step keeps the tables

  lemma RefuseKeeps(s: State, peer: nat, now: int)
    requires Tables(s.net) && peer < |s.net.all|
    ensures Tables(RefuseFrame(s, peer, now).net)
  {
    GoneKeeps(s.net, peer);
  }

  lemma OnHelloKeeps(s: State, peer: nat, role: Role, key: Key, nonce: string, now: int)
    requires Tables(s.net) && peer < |s.net.all|
    ensures Tables(OnHello(s, peer, role, key, nonce, now).net)
  {
    var view := s.net.all[peer];
    if view.phase != New {
      RefuseKeeps(s, peer, now);
    } else {
      SetKeeps(s.net, peer,
        view.(role := Some(role), publicKey := Some(key), nonce := Some(nonce), phase := Challenged));
    }
  }

  lemma OnRelayKeeps(c: Config, s: State, peer: nat, id: string, to: Key, envelope: string, signature: string, now: int)
    requires Tables(s.net) && peer < |s.net.all| && s.net.KnowsHolder(to)
    ensures Tables(OnRelay(c, s, peer, id, to, envelope, signature, now).net)
  {
    if s.net.all[peer].phase != Ready {
      RefuseKeeps(s, peer, now);
    } else {
      OnRelayNet(c, s, peer, id, to, envelope, signature, now);
    }
  }

  lemma OnRelayNet(c: Config, s: State, peer: nat, id: string, to: Key, envelope: string, signature: string, now: int)
    requires peer < |s.net.all| && s.net.KnowsHolder(to)
    requires s.net.all[peer].phase == Ready && s.net.all[peer].publicKey.Some?
    ensures OnRelay(c, s, peer, id, to, envelope, signature, now).net == s.net
  {
  }

  lemma OnIceKeeps(c: Config, s: State, peer: nat, id: string, now: int)
    requires Tables(s.net) && peer < |s.net.all|
    ensures Tables(OnIce(c, s, peer, id, now).net)
  {
    if s.net.all[peer].phase != Ready {
      RefuseKeeps(s, peer, now);
    } else {
      OnIceNet(c, s, peer, id, now);
    }
  }

  lemma OnIceNet(c: Config, s: State, peer: nat, id: string, now: int)
    requires peer < |s.net.all| && s.net.all[peer].phase == Ready
    requires s.net.all[peer].role.Some? && s.net.all[peer].publicKey.Some?
    ensures OnIce(c, s, peer, id, now).net == s.net
  {
  }

  lemma OnProvenKeeps(c: Config, s: State, peer: nat, key: Key, now: int)
    requires Tables(s.net) && peer < |s.net.all| && s.net.KnowsHolder(key)
    requires s.net.all[peer].phase == Challenged && s.net.all[peer].publicKey == Some(key)
    ensures Tables(OnProven(c, s, peer, key, now).net)
  {
    if Wait(c.limits.announcements, GrantsOf(s.spent.announcements, key), now) > 0 {
      GoneKeeps(s.net, peer);
    } else {
      if key in s.net.announced {
        GoneKeeps(s.net, s.net.announced[key]);
        GoneFrame(s.net, s.net.announced[key]);
      }
      var counted := s.(spent := s.spent.(announcements := Granted(s.spent.announcements, key, now)));
      ListedKeeps(Replace(counted, key, now).net, peer, key);
    }
  }

  lemma OnProveKeeps(c: Config, s: State, peer: nat, signature: string, now: int)
    requires s.Wf() && Tables(s.net) && peer < |s.net.all|
    ensures Tables(OnProve(c, s, peer, signature, now).net)
  {
    var view := s.net.all[peer];
    if view.phase != Challenged || view.nonce.None? {
      RefuseKeeps(s, peer, now);
    } else {
      var key := view.publicKey.value;
      var claim := Claim(view.name, view.role.value, key, view.nonce.value);
      var passed := c.verify(key, claim, signature);
      var checked := Show(SetPeer(s, peer, view.(nonce := None)), Checked(peer, claim, signature, passed), now);
      SetKeeps(s.net, peer, view.(nonce := None));
      if passed {
        OnProvenKeeps(c, checked, peer, key, now);
      } else {
        GoneKeeps(checked.net, peer);
      }
    }
  }

  lemma OnFrameKeeps(c: Config, s: State, peer: nat, frame: PeerFrame, nonce: string, now: int)
    requires s.Wf() && Tables(s.net) && peer < |s.net.all|
    ensures Tables(OnFrame(c, s, peer, frame, nonce, now).net)
  {
    match frame
    case Hello(role, key) => OnHelloKeeps(s, peer, role, key, nonce, now);
    case Prove(signature) => OnProveKeeps(c, s, peer, signature, now);
    case Relay(id, to, envelope, signature) => OnRelayKeeps(c, s, peer, id, to, envelope, signature, now);
    case Ice(id) => OnIceKeeps(c, s, peer, id, now);
  }

  lemma OnSizedKeeps(c: Config, s: State, peer: nat, message: Incoming, nonce: string, now: int)
    requires s.Wf() && Tables(s.net) && peer < |s.net.all|
    ensures Tables(OnSized(c, s, peer, message, nonce, now).net)
  {
    var ip := s.net.all[peer].ip;
    if Wait(c.limits.frames, GrantsOf(s.spent.frames, ip), now) == 0 {
      var counted := s.(spent := s.spent.(frames := Granted(s.spent.frames, ip, now)));
      if message.NotText? || message.frame.None? {
        RefuseKeeps(counted, peer, now);
      } else {
        OnFrameKeeps(c, counted, peer, message.frame.value, nonce, now);
      }
    }
  }

  lemma OnMessageKeeps(c: Config, s: State, peer: nat, message: Incoming, nonce: string, now: int)
    requires s.Wf() && Tables(s.net) && peer < |s.net.all|
    ensures Tables(OnMessage(c, s, peer, message, nonce, now).net)
  {
    if s.net.all[peer].phase != Closed {
      var heard := OnHeard(s, peer, now);
      HeardKeeps(s.net, peer, now);
      if message.Text? && message.bytes > c.limits.maxMessageBytes {
        GoneKeeps(heard.net, peer);
      } else {
        OnSizedKeeps(c, heard, peer, message, nonce, now);
      }
    }
  }

  lemma SweepPeerKeeps(c: Config, s: State, peer: nat, now: int)
    requires Tables(s.net) && peer < |s.net.all|
    ensures Tables(SweepPeer(c, s, peer, now).net)
  {
    GoneKeeps(s.net, peer);
    SetKeeps(s.net, peer, s.net.all[peer].(lastPingAt := now));
  }

  lemma {:induction false} SweepAllKeeps(c: Config, s: State, peers: seq<nat>, now: int)
    requires Tables(s.net) && InRange(s.net, peers)
    ensures Tables(SweepAll(c, s, peers, now).net)
  {
    if peers != [] {
      var n := |peers| - 1;
      SweepAllKeeps(c, s, peers[..n], now);
      SweepPeerKeeps(c, SweepAll(c, s, peers[..n], now), peers[n], now);
    }
  }

  lemma {:induction false} CloseAllKeeps(s: State, peers: seq<nat>, now: int)
    requires Tables(s.net) && InRange(s.net, peers)
    ensures Tables(CloseAll(s, peers, now).net)
  {
    if peers != [] {
      var n := |peers| - 1;
      CloseAllKeeps(s, peers[..n], now);
      GoneKeeps(CloseAll(s, peers[..n], now).net, peers[n]);
    }
  }

  lemma {:induction false} CloseAllCloses(s: State, peers: seq<nat>, now: int, peer: nat)
    requires Tables(s.net) && InRange(s.net, peers) && peer < |s.net.all|
    requires s.net.all[peer].phase == Closed || peer in peers
    ensures CloseAll(s, peers, now).net.all[peer].phase == Closed
  {
    if peers != [] {
      var n := |peers| - 1;
      CloseAllKeeps(s, peers[..n], now);
      GoneFrame(CloseAll(s, peers[..n], now).net, peers[n]);
      if peer != peers[n] {
        CloseAllCloses(s, peers[..n], now, peer);
      }
    }
  }

  /** Whatever the step, the tables agree with the peers after it when they did before. */
  lemma StepKeepsTables(c: Config, s: State, t: Timed)
    requires s.Wf() && Tables(s.net)
    ensures Tables(Do(c, s, t).net)
  {
    if Enabled(s, t.step) {
      match t.step
      case Admit(address) =>
      case Open(address, name) => OpenedKeeps(s.net, c.addressKey(address), name, t.at);
      case Message(peer, message, nonce) => OnMessageKeeps(c, s, peer, message, nonce, t.at);
      case Heard(peer) => HeardKeeps(s.net, peer, t.at);
      case SocketGone(peer) => GoneKeeps(s.net, peer);
      case Sweep => SweepAllKeeps(c, s, s.net.live, t.at);
      case GoAway => CloseAllKeeps(s, s.net.live, t.at);
      case IceAnswer(index, grant) => assert OnIceAnswer(s, index, grant, t.at).net == s.net;
    }
  }

  /** Going away closes every peer and leaves all three tables empty. */
  lemma GoAwayEmptiesTables(c: Config, s: State, now: int)
    requires s.Wf() && Tables(s.net)
    ensures var after := Do(c, s, Timed(now, GoAway)).net;
            after.live == [] && after.announced == map[] && after.socketsPerIp == map[]
  {
    var after := CloseAll(s, s.net.live, now).net;
    CloseAllKeeps(s, s.net.live, now);
    forall peer: nat | peer < |s.net.all| ensures after.all[peer].phase == Closed {
      CloseAllCloses(s, s.net.live, now, peer);
    }
    assert forall i :: 0 <= i < |after.live| ==> after.live[i] !in after.live;
    forall ip ensures ip !in after.socketsPerIp {
      assert CountAgrees(after, ip);
    }
  }
}
