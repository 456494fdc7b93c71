/**
 The broker itself: peers, the three tables and the limiters, changed in place.

 Every public method appends its step to `run`, and `Valid` says that the object stands where
 the model stands after that run. What BrokerRuns proves of every run therefore holds of
 every broker object, whatever was called on it.
 */
module Broker {
  import opened Options
  import opened RateLimit
  import opened BrokerModel
  import BrokerRuns
  import BrokerTables

  class Peer {
    const ip: string
    const name: string
    const openedAt: int
    // How many sockets were opened before this one.
    ghost const number: nat
    var phase: Phase
    var role: Option<Role>
    var publicKey: Option<Key>
    var nonce: Option<string>
    var lastHeardAt: int
    var lastPingAt: int

    constructor (ip: string, name: string, now: int, ghost number: nat)
      ensures View() == PeerView(ip, name, now, New, None, None, None, now, now) && this.number == number
    {
      this.ip := ip;
      this.name := name;
      this.number := number;
      openedAt, lastHeardAt, lastPingAt := now, now, now;
      phase, role, publicKey, nonce := New, None, None, None;
    }

    ghost function View(): PeerView
      reads this
    {
      PeerView(ip, name, openedAt, phase, role, publicKey, nonce, lastHeardAt, lastPingAt)
    }
  }

  /** An `ice` frame whose handler waits for the TURN provider. */
  datatype Question = Question(peer: Peer, id: string)

  class Broker {
    const config: Config
    var peers: seq<Peer>
    var announced: map<Key, Peer>
    var socketsPerIp: map<string, int>
    var questions: seq<Question>
    const connections: RateLimiter
    const frames: RateLimiter
    const relays: RateLimiter
    const announcements: RateLimiter
    const iceRequests: RateLimiter
    const iceRequestsPerIp: RateLimiter
    const iceRequestsAll: RateLimiter

    // Every peer ever opened, the value the object stands for, and how it came there.
    ghost var all: seq<Peer>
    ghost var model: State
    ghost var run: seq<Timed>
    ghost var clock: int

    ghost predicate PeersMatch()
      reads this`all, this`model, all
    {
      && |all| == |model.net.all|
      && (forall i :: 0 <= i < |all| ==> all[i].number == i && all[i].View() == model.net.all[i])
    }

    ghost predicate TablesMatch()
      reads this`all, this`model, this`peers, this`announced, this`socketsPerIp, this`questions
    {
      && model.Wf() && |all| == |model.net.all|
      && Listing(all, peers, model.net.live)
      && announced.Keys == model.net.announced.Keys
      && (forall key :: key in announced ==> announced[key] == all[model.net.announced[key]])
      && socketsPerIp == model.net.socketsPerIp
      && |questions| == |model.suspended|
      && (forall i :: 0 <= i < |questions| ==>
            questions[i] == Question(all[model.suspended[i].peer], model.suspended[i].id))
    }

    ghost predicate Meters(limiter: RateLimiter, limit: Limit, history: Grants)
      reads this`clock, limiter
    {
      limiter.Valid() && limiter.limit == limit && limiter.history == history && limiter.clock <= clock
    }

    ghost predicate LimitersMatch()
      reads this`model, this`clock
      reads connections, frames, relays, announcements, iceRequests, iceRequestsPerIp, iceRequestsAll
    {
      && Meters(connections, config.limits.connections, model.spent.connections)
      && Meters(frames, config.limits.frames, model.spent.frames)
      && Meters(relays, config.limits.relays, model.spent.relays)
      && Meters(announcements, config.limits.announcements, model.spent.announcements)
      && Meters(iceRequests, config.limits.icePerKey, model.spent.icePerKey)
      && Meters(iceRequestsPerIp, config.limits.icePerIp, model.spent.icePerIp)
      && Meters(iceRequestsAll, config.limits.iceAll, model.spent.iceAll)
    }

    ghost predicate LimitersApart() {
      && connections !in {frames, relays, announcements, iceRequests, iceRequestsPerIp, iceRequestsAll}
      && frames !in {relays, announcements, iceRequests, iceRequestsPerIp, iceRequestsAll}
      && relays !in {announcements, iceRequests, iceRequestsPerIp, iceRequestsAll}
      && announcements !in {iceRequests, iceRequestsPerIp, iceRequestsAll}
      && iceRequests !in {iceRequestsPerIp, iceRequestsAll}
      && iceRequestsPerIp != iceRequestsAll
    }

    /** The fields agree with the model. */
    ghost predicate Matches()
      reads this`all, this`model, this`peers, this`announced, this`socketsPerIp, this`questions, this`clock, all
      reads connections, frames, relays, announcements, iceRequests, iceRequestsPerIp, iceRequestsAll
    {
      PeersMatch() && TablesMatch() && LimitersMatch() && LimitersApart()
    }

    /** The fields agree with the model, and the model is where its run leads. */
    ghost predicate Valid()
      reads this, all, connections, frames, relays, announcements, iceRequests, iceRequestsPerIp, iceRequestsAll
    {
      Matches() && Follows(clock) && model == BrokerRuns.After(config, run)
    }

    /** What the object and its model know of a peer, of a key and of the open questions is the same. */
    lemma Sees(peer: Peer)
      requires Matches() && peer in all
      ensures peer.number < |model.net.all| && all[peer.number] == peer && peer.View() == model.net.all[peer.number]
      ensures model.Wf()
    {
    }

    lemma Knows(key: Key)
      requires Matches()
      ensures model.Wf() && (key in announced <==> key in model.net.announced)
      ensures key in announced ==> announced[key] in all && announced[key].number == model.net.announced[key]
    {
    }

    lemma CountsTheSame()
      requires Matches()
      ensures |all| == |model.net.all| && |questions| == |model.suspended| && |peers| == |model.net.live| && model.Wf()
      ensures announced.Keys == model.net.announced.Keys && socketsPerIp == model.net.socketsPerIp
    {
    }

    constructor (
        addressKey: string -> string, verify: (Key, Claim, string) -> bool,
        maxMessageBytes: nat, maxSocketsPerIp: nat,
        connectionsPerMinutePerIp: nat, framesPerSecondPerIp: nat, relaysPerMinutePerKey: nat,
        announcesPerMinutePerKey: nat, iceRequestsPerMinutePerKey: nat, iceRequestsPerMinutePerIp: nat,
        iceRequestsPerMinute: nat, heartbeatMs: nat, helloTimeoutMs: nat, now: int)
      requires connectionsPerMinutePerIp >= 1 && framesPerSecondPerIp >= 1 && relaysPerMinutePerKey >= 1
      requires announcesPerMinutePerKey >= 1 && iceRequestsPerMinutePerKey >= 1
      requires iceRequestsPerMinutePerIp >= 1 && iceRequestsPerMinute >= 1
      ensures Valid() && run == [] && clock == now
      ensures config.addressKey == addressKey && config.verify == verify
      ensures config.limits.maxMessageBytes == maxMessageBytes && config.limits.maxSocketsPerIp == maxSocketsPerIp
      ensures config.limits.heartbeatMs == heartbeatMs && config.limits.helloTimeoutMs == helloTimeoutMs
      ensures config.limits.connections.Allows(connectionsPerMinutePerIp, 60_000)
      ensures config.limits.frames.Allows(framesPerSecondPerIp, 1_000)
      ensures config.limits.relays.Allows(relaysPerMinutePerKey, 60_000)
      ensures config.limits.announcements.Allows(announcesPerMinutePerKey, 60_000)
      ensures config.limits.icePerKey.Allows(iceRequestsPerMinutePerKey, 60_000)
      ensures config.limits.icePerIp.Allows(iceRequestsPerMinutePerIp, 60_000)
      ensures config.limits.iceAll.Allows(iceRequestsPerMinute, 60_000)
    {
      var connections := new RateLimiter(connectionsPerMinutePerIp, 60_000, now);
      var frames := new RateLimiter(framesPerSecondPerIp, 1_000, now);
      var relays := new RateLimiter(relaysPerMinutePerKey, 60_000, now);
      var announcements := new RateLimiter(announcesPerMinutePerKey, 60_000, now);
      var iceRequests := new RateLimiter(iceRequestsPerMinutePerKey, 60_000, now);
      var iceRequestsPerIp := new RateLimiter(iceRequestsPerMinutePerIp, 60_000, now);
      var iceRequestsAll := new RateLimiter(iceRequestsPerMinute, 60_000, now);
      config := Config(
        Limits(maxMessageBytes, maxSocketsPerIp, connections.limit, frames.limit, relays.limit, announcements.limit,
               iceRequests.limit, iceRequestsPerIp.limit, iceRequestsAll.limit, heartbeatMs, helloTimeoutMs),
        addressKey, verify);
      this.connections, this.frames, this.relays, this.announcements := connections, frames, relays, announcements;
      this.iceRequests, this.iceRequestsPerIp, this.iceRequestsAll := iceRequests, iceRequestsPerIp, iceRequestsAll;
      peers, announced, socketsPerIp, questions := [], map[], map[], [];
      all, model, run, clock := [], EMPTY, [], now;
      new;
      assert TablesMatch();
      assert LimitersMatch();
    }

    // -------------------------------------------------------------------------------------------
    // Sockets

    /** Writes a frame to the socket of a peer; a socket that is going away takes nothing, which nobody hears of. */
    method Send(peer: Peer, frame: ServerFrame, now: int)
      requires Matches() && peer in all
      modifies this`model
      ensures Matches() && model == BrokerModel.Send(old(model), peer.number, frame, now)
    {
      model := BrokerModel.Send(model, peer.number, frame, now);
    }

    /** Closes the socket of a peer, which may report back at once that it is gone. */
    method Close(peer: Peer, code: CloseCode, now: int)
      requires Matches() && peer in all
      modifies this`peers, this`announced, this`socketsPerIp, this`model, peer
      ensures Matches() && model == BrokerModel.Close(old(model), peer.number, code, now)
    {
      model := Show(model, SocketClosed(peer.number, code), now);
      var reportsAtOnce: bool := *;
      if reportsAtOnce {
        Gone(peer);
      }
      Gone(peer);
    }

    /** Takes a peer out of every table, however often it is told. */
    method Gone(peer: Peer)
      requires Matches() && peer in all
      modifies this`peers, this`announced, this`socketsPerIp, this`model, peer
      ensures Matches() && model == old(model).(net := BrokerModel.Gone(old(model).net, peer.number))
      ensures peer !in peers
    {
      hide BrokerModel.Without;
      ListedByNumber(all, peers, model.net.live, peer.number);
      if peer in peers {
        ghost var n := model.net;
        DropFromPeers(peer);
        MarkClosed(peer);
        Unannounce(peer);
        CountDown(peer.ip);
        assert model.net == Unlisted(n, peer.number);
      }
    }

    method MarkClosed(peer: Peer)
      requires Matches() && peer in all
      modifies this`model, peer`phase
      ensures Matches()
      ensures model == SetPeer(old(model), peer.number, old(model).net.all[peer.number].(phase := Closed))
    {
      peer.phase := Closed;
      SetModel(peer, model.net.all[peer.number].(phase := Closed));
    }

    method DropFromPeers(peer: Peer)
      requires Matches() && peer in all
      modifies this`peers, this`model
      ensures Matches() && peer !in peers
      ensures model == old(model).(net := old(model).net.(live := Without(old(model).net.live, peer.number)))
    {
      WithoutListed(all, peers, model.net.live, peer.number);
      peers := Without(peers, peer);
      model := model.(net := model.net.(live := Without(model.net.live, peer.number)));
    }

    method Unannounce(peer: Peer)
      requires Matches() && peer in all
      modifies this`announced, this`model
      ensures Matches()
      ensures model == old(model).(net := old(model).net.(announced :=
                var key := peer.publicKey;
                if key.Some? && key.value in old(model).net.announced
                   && old(model).net.announced[key.value] == peer.number
                then old(model).net.announced - {key.value} else old(model).net.announced))
    {
      if peer.publicKey.Some? && peer.publicKey.value in announced && announced[peer.publicKey.value] == peer {
        announced := announced - {peer.publicKey.value};
        model := model.(net := model.net.(announced := model.net.announced - {peer.publicKey.value}));
      }
    }

    method CountDown(ip: string)
      requires Matches()
      modifies this`socketsPerIp, this`model
      ensures Matches()
      ensures model == old(model).(net := old(model).net.(socketsPerIp :=
                var counts := old(model).net.socketsPerIp;
                var count := CountAt(counts, ip, 1) - 1;
                if count <= 0 then counts - {ip} else counts[ip := count]))
    {
      var count := CountAt(socketsPerIp, ip, 1) - 1;
      if count <= 0 {
        socketsPerIp := socketsPerIp - {ip};
      } else {
        socketsPerIp := socketsPerIp[ip := count];
      }
      model := model.(net := model.net.(socketsPerIp := socketsPerIp));
    }

    // -------------------------------------------------------------------------------------------
    // Frames

    /** Answers a frame out of turn with `BadFrame`; only a ready peer keeps its socket. */
    method RefuseFrame(peer: Peer, now: int)
      requires Matches() && peer in all
      modifies this`peers, this`announced, this`socketsPerIp, this`model, peer
      ensures Matches() && model == BrokerModel.RefuseFrame(old(model), peer.number, now)
    {
      Send(peer, Error(BadFrame, None), now);
      if peer.phase != Ready {
        Close(peer, BadFrameClose, now);
      }
    }

    method Hello(peer: Peer, role: Role, key: Key, nonce: string, now: int)
      requires Matches() && peer in all
      modifies this`peers, this`announced, this`socketsPerIp, this`model, peer
      ensures Matches() && model == OnHello(old(model), peer.number, role, key, nonce, now)
    {
      hide Matches;
      Sees(peer);
      if peer.phase != New {
        RefuseFrame(peer, now);
        return;
      }
      Claims(peer, role, key, nonce);
      Send(peer, Challenge(peer.name, nonce), now);
    }

    method Claims(peer: Peer, role: Role, key: Key, nonce: string)
      requires Matches() && peer in all
      modifies this`model, peer
      ensures Matches()
      ensures model == SetPeer(old(model), peer.number, old(model).net.all[peer.number].(
                role := Some(role), publicKey := Some(key), nonce := Some(nonce), phase := Challenged))
    {
      peer.role := Some(role);
      peer.publicKey := Some(key);
      peer.nonce := Some(nonce);
      peer.phase := Challenged;
      SetModel(peer, peer.View());
    }

    method Relay(peer: Peer, id: string, to: Key, envelope: string, signature: string, now: int)
      requires Matches() && peer in all && clock == now
      modifies this`peers, this`announced, this`socketsPerIp, this`model, peer, relays
      ensures Matches() && model == OnRelay(config, old(model), peer.number, id, to, envelope, signature, now)
    {
      if peer.phase != Ready || peer.publicKey.None? {
        RefuseFrame(peer, now);
        return;
      }
      var key := peer.publicKey.value;
      var wait := TakeRelay(key, now);
      if wait > 0 {
        Send(peer, RateLimited(PerKey, wait, Some(id)), now);
        return;
      }
      if to !in announced || announced[to].role == peer.role {
        Send(peer, Error(NotConnected, Some(id)), now);
        return;
      }
      Send(announced[to], Relayed(key, envelope, signature), now);
      Send(peer, Delivered(id), now);
    }

    method TakeRelay(key: Key, now: int) returns (wait: int)
      requires Matches() && clock == now
      modifies this`model, relays
      ensures Matches() && wait == Wait(config.limits.relays, GrantsOf(old(model).spent.relays, key), now)
      ensures model == if wait > 0 then old(model)
                       else old(model).(spent :=
                              old(model).spent.(relays := Granted(old(model).spent.relays, key, now)))
    {
      wait := relays.Take(key, now);
      if wait == 0 {
        model := model.(spent := model.spent.(relays := relays.history));
      }
    }

    method Prove(peer: Peer, signature: string, now: int)
      requires Matches() && peer in all && clock == now
      modifies this`peers, this`announced, this`socketsPerIp, this`model, all, announcements
      ensures Matches() && model == OnProve(config, old(model), peer.number, signature, now)
    {
      hide Matches;
      Sees(peer);
      if peer.phase != Challenged || peer.role.None? || peer.publicKey.None? || peer.nonce.None? {
        RefuseFrame(peer, now);
        return;
      }
      var claim := Claim(peer.name, peer.role.value, peer.publicKey.value, peer.nonce.value);
      // Cleared before the check, so that a second proof finds none.
      SpendNonce(peer);
      var passed := config.verify(claim.publicKey, claim, signature);
      ShowChecked(peer, claim, signature, passed, now);
      if passed {
        Proven(peer, claim.publicKey, now);
      } else {
        Send(peer, Error(BadSignature, None), now);
        Close(peer, BadSignatureClose, now);
      }
    }

    ghost method ShowChecked(peer: Peer, claim: Claim, signature: string, passed: bool, now: int)
      requires Matches()
      modifies this`model
      ensures Matches() && model == Show(old(model), Checked(peer.number, claim, signature, passed), now)
    {
      model := Show(model, Checked(peer.number, claim, signature, passed), now);
    }

    method SpendNonce(peer: Peer)
      requires Matches() && peer in all
      modifies this`model, peer`nonce
      ensures Matches()
      ensures model == SetPeer(old(model), peer.number, old(model).net.all[peer.number].(nonce := None))
    {
      peer.nonce := None;
      SetModel(peer, peer.View());
    }

    method Proven(peer: Peer, key: Key, now: int)
      requires Matches() && peer in all && clock == now
      modifies this`peers, this`announced, this`socketsPerIp, this`model, all, announcements
      ensures Matches() && model == OnProven(config, old(model), peer.number, key, now)
    {
      hide Matches, BrokerModel.Gone, BrokerModel.Send, BrokerModel.Close;
      Knows(key);
      // The budget is that of the key, so only its owner may spend it.
      var wait := TakeAnnouncement(key, now);
      if wait > 0 {
        Send(peer, RateLimited(PerKey, wait, None), now);
        Close(peer, RateLimitedClose, now);
        return;
      }
      if key in announced {
        var previous := announced[key];
        Send(previous, Error(Replaced, None), now);
        Close(previous, ReplacedClose, now);
      }
      Announce(peer, key, now);
    }

    method Announce(peer: Peer, key: Key, now: int)
      requires Matches() && peer in all
      modifies this`announced, this`model, peer`phase
      ensures Matches() && model == BrokerModel.Announce(old(model), peer.number, key, now)
    {
      announced := announced[key := peer];
      model := model.(net := model.net.(announced := model.net.announced[key := peer.number]));
      peer.phase := Ready;
      SetModel(peer, peer.View());
      Send(peer, Announced, now);
    }

    method TakeAnnouncement(key: Key, now: int) returns (wait: int)
      requires Matches() && clock == now
      modifies this`model, announcements
      ensures Matches() && wait == Wait(config.limits.announcements, GrantsOf(old(model).spent.announcements, key), now)
      ensures model == if wait > 0 then old(model) else old(model).(spent :=
                old(model).spent.(announcements := Granted(old(model).spent.announcements, key, now)))
    {
      wait := announcements.Take(key, now);
      if wait == 0 {
        model := model.(spent := model.spent.(announcements := announcements.history));
      }
    }

    /** An `ice` frame up to its question to the TURN provider; `IceAnswered` is what follows the answer. */
    method Ice(peer: Peer, id: string, now: int)
      requires Matches() && peer in all && clock == now
      modifies this`peers, this`announced, this`socketsPerIp, this`questions, this`model, peer
      modifies iceRequests, iceRequestsPerIp, iceRequestsAll
      ensures Matches() && model == OnIce(config, old(model), peer.number, id, now)
    {
      if peer.phase != Ready || peer.role.None? || peer.publicKey.None? {
        RefuseFrame(peer, now);
        return;
      }
      var waitIp := TakeIcePerIp(peer.ip, now);
      if waitIp > 0 {
        Send(peer, RateLimited(PerIp, waitIp, Some(id)), now);
        return;
      }
      IceOfIp(peer, id, peer.role.value, peer.publicKey.value, now);
    }

    method IceOfIp(peer: Peer, id: string, role: Role, key: Key, now: int)
      requires Matches() && peer in all && clock == now
      modifies this`questions, this`model, iceRequests, iceRequestsAll
      ensures Matches() && model == OnIceOfIp(config, old(model), peer.number, id, role, key, now)
    {
      var wait := TakeIcePerKey(key, now);
      if wait > 0 {
        Send(peer, RateLimited(PerKey, wait, Some(id)), now);
        return;
      }
      var waitAll := TakeIceAll(now);
      if waitAll > 0 {
        // The budget all peers share is reported as one of the address.
        Send(peer, RateLimited(PerIp, waitAll, Some(id)), now);
        return;
      }
      Ask(peer, id, role, key, now);
    }

    method Ask(peer: Peer, id: string, role: Role, key: Key, now: int)
      requires Matches() && peer in all
      modifies this`questions, this`model
      ensures Matches()
      ensures model == Show(old(model).(suspended := old(model).suspended + [Suspended(peer.number, id)]),
                            TurnAsked(peer.number, id, role, key), now)
    {
      questions := questions + [Question(peer, id)];
      model := Show(model.(suspended := model.suspended + [Suspended(peer.number, id)]),
                    TurnAsked(peer.number, id, role, key), now);
    }

    method TakeIcePerIp(ip: string, now: int) returns (wait: int)
      requires Matches() && clock == now
      modifies this`model, iceRequestsPerIp
      ensures Matches() && wait == Wait(config.limits.icePerIp, GrantsOf(old(model).spent.icePerIp, ip), now)
      ensures model == if wait > 0 then old(model) else old(model).(spent :=
                old(model).spent.(icePerIp := Granted(old(model).spent.icePerIp, ip, now)))
    {
      wait := iceRequestsPerIp.Take(ip, now);
      if wait == 0 {
        model := model.(spent := model.spent.(icePerIp := iceRequestsPerIp.history));
      }
    }

    method TakeIcePerKey(key: Key, now: int) returns (wait: int)
      requires Matches() && clock == now
      modifies this`model, iceRequests
      ensures Matches() && wait == Wait(config.limits.icePerKey, GrantsOf(old(model).spent.icePerKey, key), now)
      ensures model == if wait > 0 then old(model) else old(model).(spent :=
                old(model).spent.(icePerKey := Granted(old(model).spent.icePerKey, key, now)))
    {
      wait := iceRequests.Take(key, now);
      if wait == 0 {
        model := model.(spent := model.spent.(icePerKey := iceRequests.history));
      }
    }

    method TakeIceAll(now: int) returns (wait: int)
      requires Matches() && clock == now
      modifies this`model, iceRequestsAll
      ensures Matches() && wait == Wait(config.limits.iceAll, GrantsOf(old(model).spent.iceAll, "all"), now)
      ensures model == if wait > 0 then old(model) else old(model).(spent :=
                old(model).spent.(iceAll := Granted(old(model).spent.iceAll, "all", now)))
    {
      wait := iceRequestsAll.Take("all", now);
      if wait == 0 {
        model := model.(spent := model.spent.(iceAll := iceRequestsAll.history));
      }
    }

    method Frame(peer: Peer, frame: PeerFrame, nonce: string, now: int)
      requires Matches() && peer in all && clock == now
      modifies this`peers, this`announced, this`socketsPerIp, this`questions, this`model, all
      modifies relays, announcements, iceRequests, iceRequestsPerIp, iceRequestsAll
      ensures Matches() && model == OnFrame(config, old(model), peer.number, frame, nonce, now)
    {
      match frame
      case Hello(role, key) => Hello(peer, role, key, nonce, now);
      case Prove(signature) => Prove(peer, signature, now);
      case Relay(id, to, envelope, signature) => Relay(peer, id, to, envelope, signature, now);
      case Ice(id) => Ice(peer, id, now);
    }

    /** A message within the size cap: it spends the frame budget of its address first, whatever it holds. */
    method Sized(peer: Peer, message: Incoming, nonce: string, now: int)
      requires Matches() && peer in all && clock == now
      modifies this`peers, this`announced, this`socketsPerIp, this`questions, this`model, all
      modifies frames, relays, announcements, iceRequests, iceRequestsPerIp, iceRequestsAll
      ensures Matches() && model == OnSized(config, old(model), peer.number, message, nonce, now)
    {
      var wait := TakeFrame(peer.ip, now);
      if wait > 0 {
        Send(peer, RateLimited(PerIp, wait, None), now);
      } else if message.NotText? || message.frame.None? {
        RefuseFrame(peer, now);
      } else {
        Frame(peer, message.frame.value, nonce, now);
      }
    }

    method TakeFrame(ip: string, now: int) returns (wait: int)
      requires Matches() && clock == now
      modifies this`model, frames
      ensures Matches() && wait == Wait(config.limits.frames, GrantsOf(old(model).spent.frames, ip), now)
      ensures model == if wait > 0 then old(model)
                       else old(model).(spent := old(model).spent.(frames := Granted(old(model).spent.frames, ip, now)))
    {
      wait := frames.Take(ip, now);
      if wait == 0 {
        model := model.(spent := model.spent.(frames := frames.history));
      }
    }

    // -------------------------------------------------------------------------------------------
    // The steps

    method AdmitAddress(address: string, now: int) returns (wait: int)
      requires Matches() && clock == now
      modifies this`model, connections
      ensures Matches() && model == OnAdmit(config, old(model), address, now)
      ensures wait == AdmitWait(config, old(model), address, now)
    {
      var ip := config.addressKey(address);
      if CountAt(socketsPerIp, ip, 0) >= config.limits.maxSocketsPerIp {
        wait := 60_000;
      } else {
        wait := connections.Take(ip, now);
        if wait == 0 {
          model := model.(spent := model.spent.(connections := connections.history));
        }
      }
    }

    method AddPeer(peer: Peer, now: int)
      requires Matches() && peer.number == |all|
      requires peer.View() == PeerView(peer.ip, peer.name, now, New, None, None, None, now, now)
      modifies this`peers, this`socketsPerIp, this`all, this`model
      ensures Matches() && all == old(all) + [peer]
      ensures model == old(model).(net := Opened(old(model).net, peer.ip, peer.name, now))
    {
      hide Matches;
      CountsTheSame();
      Number(peer);
      List(peer);
    }

    /** One more peer was ever opened. */
    ghost method Number(peer: Peer)
      requires Matches() && peer.number == |all|
      modifies this`all, this`model
      ensures Matches() && all == old(all) + [peer]
      ensures model == old(model).(net := old(model).net.(all := old(model).net.all + [peer.View()]))
    {
      all := all + [peer];
      model := model.(net := model.net.(all := model.net.all + [peer.View()]));
    }

    method List(peer: Peer)
      requires Matches() && peer in all
      modifies this`peers, this`socketsPerIp, this`model
      ensures Matches()
      ensures model == old(model).(net := old(model).net.(
                live := old(model).net.live + [peer.number],
                socketsPerIp := old(model).net.socketsPerIp[peer.ip :=
                  CountAt(old(model).net.socketsPerIp, peer.ip, 0) + 1]))
    {
      peers := peers + [peer];
      socketsPerIp := socketsPerIp[peer.ip := CountAt(socketsPerIp, peer.ip, 0) + 1];
      model := model.(net := model.net.(live := model.net.live + [peer.number], socketsPerIp := socketsPerIp));
    }

    method HandleMessage(peer: Peer, message: Incoming, nonce: string, now: int)
      requires Matches() && clock == now && peer in all
      modifies this`peers, this`announced, this`socketsPerIp, this`questions, this`model, all
      modifies frames, relays, announcements, iceRequests, iceRequestsPerIp, iceRequestsAll
      ensures Matches() && model == OnMessage(config, old(model), peer.number, message, nonce, now)
    {
      if peer.phase == Closed {
        return;
      }
      Touch(peer, now);
      if message.Text? && message.bytes > config.limits.maxMessageBytes {
        Close(peer, TooLarge, now);
        return;
      }
      Sized(peer, message, nonce, now);
    }

    method Touch(peer: Peer, now: int)
      requires Matches() && peer in all
      modifies this`model, peer`lastHeardAt
      ensures Matches() && model == OnHeard(old(model), peer.number, now)
    {
      peer.lastHeardAt := now;
      SetModel(peer, peer.View());
    }

    method SweepPeers(now: int)
      requires Matches()
      modifies this`peers, this`announced, this`socketsPerIp, this`model, all
      ensures Matches() && model == SweepAll(config, old(model), old(model).net.live, now)
    {
      ghost var before := model;
      var snapshot := peers;
      assert forall i :: 0 <= i < |snapshot| ==> snapshot[i] in all && snapshot[i].number == before.net.live[i];
      hide Matches, BrokerModel.Gone;
      for i := 0 to |snapshot|
        invariant Matches() && model == SweepAll(config, before, before.net.live[..i], now)
      {
        assert before.net.live[..i + 1][..i] == before.net.live[..i];
        SweepOne(snapshot[i], now);
      }
      assert before.net.live[..|snapshot|] == before.net.live;
    }

    method SweepOne(peer: Peer, now: int)
      requires Matches() && peer in all
      modifies this`peers, this`announced, this`socketsPerIp, this`model, peer
      ensures Matches() && model == SweepPeer(config, old(model), peer.number, now)
    {
      hide Matches, BrokerModel.Gone;
      Sees(peer);
      if (peer.phase != Ready && now - peer.openedAt > config.limits.helloTimeoutMs)
         || now - peer.lastHeardAt > config.limits.heartbeatMs * 2
      {
        Close(peer, Timeout, now);
      } else if now - peer.lastPingAt >= config.limits.heartbeatMs {
        Ping(peer, now);
      }
    }

    method Ping(peer: Peer, now: int)
      requires Matches() && peer in all
      modifies this`model, peer`lastPingAt
      ensures Matches()
      ensures model == Show(SetPeer(old(model), peer.number, old(model).net.all[peer.number].(lastPingAt := now)),
                            Pinged(peer.number), now)
    {
      peer.lastPingAt := now;
      SetModel(peer, peer.View());
      model := Show(model, Pinged(peer.number), now);
    }

    /** Pruning forgets full buckets, which the model does not see. */
    method Prune(now: int)
      requires Matches() && clock == now
      modifies connections, frames, relays, announcements, iceRequests, iceRequestsPerIp, iceRequestsAll
      ensures Matches()
    {
      connections.Prune(now);
      frames.Prune(now);
      relays.Prune(now);
      announcements.Prune(now);
      iceRequests.Prune(now);
      iceRequestsPerIp.Prune(now);
      iceRequestsAll.Prune(now);
    }

    method ClosePeers(now: int)
      requires Matches()
      modifies this`peers, this`announced, this`socketsPerIp, this`model, all
      ensures Matches() && model == BrokerModel.CloseAll(old(model), old(model).net.live, now)
    {
      ghost var before := model;
      var snapshot := peers;
      assert forall i :: 0 <= i < |snapshot| ==> snapshot[i] in all && snapshot[i].number == before.net.live[i];
      hide Matches, BrokerModel.Gone;
      for i := 0 to |snapshot|
        invariant Matches() && model == BrokerModel.CloseAll(before, before.net.live[..i], now)
      {
        assert before.net.live[..i + 1][..i] == before.net.live[..i];
        Close(snapshot[i], GoingAway, now);
      }
      assert before.net.live[..|snapshot|] == before.net.live;
    }

    method AnswerQuestion(index: nat, grant: Option<string>, now: int)
      requires Matches() && index < |questions|
      modifies this`questions, this`model
      ensures Matches() && model == OnIceAnswer(old(model), index, grant, now)
    {
      var Question(peer, id) := questions[index];
      DropQuestion(index);
      if peer.phase == Ready {
        Send(peer, if grant.Some? then IceServers(id, grant.value) else Error(Internal, Some(id)), now);
      }
    }

    method DropQuestion(index: nat)
      requires Matches() && index < |questions|
      modifies this`questions, this`model
      ensures Matches()
      ensures model == old(model).(suspended := old(model).suspended[..index] + old(model).suspended[index + 1..])
    {
      questions := questions[..index] + questions[index + 1..];
      model := model.(suspended := model.suspended[..index] + model.suspended[index + 1..]);
    }

    // -------------------------------------------------------------------------------------------
    // What the server calls

    /** The wait before an address may open a socket, and the spending of its budget if there is none. */
    method Admit(address: string, now: int) returns (wait: int)
      requires Valid() && clock <= now
      modifies this`model, this`run, this`clock, connections
      ensures Valid() && clock == now && run == old(run) + [Timed(now, Step.Admit(address))]
      ensures wait == AdmitWait(config, old(model), address, now)
    {
      hide Matches, Do, BrokerRuns.After;
      ghost var before := Begin(now);
      wait := AdmitAddress(address, now);
      DoIs(config, before, Timed(now, Step.Admit(address)));
      Record(before, Timed(now, Step.Admit(address)));
    }

    method Open(address: string, name: string, now: int) returns (peer: Peer)
      requires Valid() && clock <= now
      modifies this`peers, this`socketsPerIp, this`all, this`model, this`run, this`clock
      ensures Valid() && clock == now && run == old(run) + [Timed(now, Step.Open(address, name))]
      ensures fresh(peer) && all == old(all) + [peer]
    {
      hide Matches, Do, BrokerRuns.After;
      ghost var before := Begin(now);
      peer := new Peer(config.addressKey(address), name, now, |all|);
      AddPeer(peer, now);
      DoIs(config, before, Timed(now, Step.Open(address, name)));
      Record(before, Timed(now, Step.Open(address, name)));
    }

    /** One message from a peer; `nonce` is what a challenge would be made with. */
    method Message(peer: Peer, message: Incoming, nonce: string, now: int)
      requires Valid() && clock <= now && peer in all
      modifies this`peers, this`announced, this`socketsPerIp, this`questions, this`model, this`run, this`clock, all
      modifies frames, relays, announcements, iceRequests, iceRequestsPerIp, iceRequestsAll
      ensures Valid() && clock == now && run == old(run) + [Timed(now, Step.Message(peer.number, message, nonce))]
    {
      hide Matches, Do, BrokerRuns.After;
      Sees(peer);
      ghost var before := Begin(now);
      HandleMessage(peer, message, nonce, now);
      DoIs(config, before, Timed(now, Step.Message(peer.number, message, nonce)));
      Record(before, Timed(now, Step.Message(peer.number, message, nonce)));
    }

    /** Hears a pong, which puts off when the peer expires. */
    method Heard(peer: Peer, now: int)
      requires Valid() && clock <= now && peer in all
      modifies this`model, this`run, this`clock, peer`lastHeardAt
      ensures Valid() && clock == now && run == old(run) + [Timed(now, Step.Heard(peer.number))]
    {
      hide Matches, Do, BrokerRuns.After;
      Sees(peer);
      ghost var before := Begin(now);
      Touch(peer, now);
      DoIs(config, before, Timed(now, Step.Heard(peer.number)));
      Record(before, Timed(now, Step.Heard(peer.number)));
    }

    /** The socket of a peer reports that it is gone. */
    method SocketEnded(peer: Peer, now: int)
      requires Valid() && clock <= now && peer in all
      modifies this`peers, this`announced, this`socketsPerIp, this`model, this`run, this`clock, peer
      ensures Valid() && clock == now && run == old(run) + [Timed(now, SocketGone(peer.number))]
    {
      hide Matches, Do, BrokerRuns.After;
      Sees(peer);
      ghost var before := Begin(now);
      Gone(peer);
      DoIs(config, before, Timed(now, SocketGone(peer.number)));
      Record(before, Timed(now, SocketGone(peer.number)));
    }

    /** Run every few seconds: drops silent and unproven peers, pings the others and prunes the limiters. */
    method Sweep(now: int)
      requires Valid() && clock <= now
      modifies this`peers, this`announced, this`socketsPerIp, this`model, this`run, this`clock, all
      modifies connections, frames, relays, announcements, iceRequests, iceRequestsPerIp, iceRequestsAll
      ensures Valid() && clock == now && run == old(run) + [Timed(now, Step.Sweep)]
    {
      hide Matches, Do, BrokerRuns.After;
      ghost var before := Begin(now);
      SweepPeers(now);
      Prune(now);
      DoIs(config, before, Timed(now, Step.Sweep));
      Record(before, Timed(now, Step.Sweep));
    }

    method CloseAll(now: int)
      requires Valid() && clock <= now
      modifies this`peers, this`announced, this`socketsPerIp, this`model, this`run, this`clock, all
      ensures Valid() && clock == now && run == old(run) + [Timed(now, GoAway)]
      ensures peers == [] && announced == map[] && socketsPerIp == map[]
    {
      hide Matches, Do, BrokerRuns.After;
      ghost var before := Begin(now);
      BrokerTables.GoAwayEmptiesTables(config, before, now);
      ClosePeers(now);
      CountsTheSame();
      DoIs(config, before, Timed(now, GoAway));
      Record(before, Timed(now, GoAway));
    }

    /** The TURN provider answered the question at `index`, with a grant or a failure. */
    method IceAnswered(index: nat, grant: Option<string>, now: int)
      requires Valid() && clock <= now && index < |questions|
      modifies this`questions, this`model, this`run, this`clock
      ensures Valid() && clock == now && run == old(run) + [Timed(now, IceAnswer(index, grant))]
    {
      hide Matches, Do, BrokerRuns.After;
      CountsTheSame();
      ghost var before := Begin(now);
      AnswerQuestion(index, grant, now);
      DoIs(config, before, Timed(now, IceAnswer(index, grant)));
      Record(before, Timed(now, IceAnswer(index, grant)));
    }

    // -------------------------------------------------------------------------------------------
    // The model

    /** After a change of one peer the model follows. */
    ghost method SetModel(peer: Peer, view: PeerView)
      requires TablesMatch() && LimitersMatch() && LimitersApart() && peer in all
      requires forall i :: 0 <= i < |all| ==> all[i].number == i
      requires forall i :: 0 <= i < |all| && all[i] != peer ==> all[i].View() == model.net.all[i]
      requires peer.number < |all| && peer.View() == view
      modifies this`model
      ensures Matches() && model == SetPeer(old(model), peer.number, view)
    {
      model := SetPeer(model, peer.number, view);
    }

    /** The clock is read for a step. */
    ghost method Begin(now: int) returns (before: State)
      requires Valid() && clock <= now
      modifies this`clock
      ensures Matches() && Follows(now) && clock == now && before == model == BrokerRuns.After(config, run)
    {
      clock := now;
      before := model;
    }

    ghost predicate Follows(now: int)
      reads this`run
    {
      config.limits.Valid() && BrokerRuns.Ordered(run) && (run != [] ==> run[|run| - 1].at <= now)
    }

    /** The step that was taken goes on record. */
    ghost method Record(before: State, t: Timed)
      requires Matches() && Follows(t.at) && clock == t.at
      requires before == BrokerRuns.After(config, run) && model == Do(config, before, t)
      modifies this`run
      ensures Valid() && run == old(run) + [t]
    {
      hide Matches, Do, BrokerRuns.After;
      BrokerRuns.AfterOneMore(config, run, t);
      run := run + [t];
    }
  }

  /** What one step does, case by case. */
  lemma DoIs(c: Config, s: State, t: Timed)
    requires s.Wf() && Enabled(s, t.step)
    ensures t.step.Admit? ==> Do(c, s, t) == OnAdmit(c, s, t.step.address, t.at)
    ensures t.step.Open? ==> Do(c, s, t) == OnOpen(c, s, t.step.address, t.step.name, t.at)
    ensures t.step.Message? ==> Do(c, s, t) == OnMessage(c, s, t.step.peer, t.step.message, t.step.nonce, t.at)
    ensures t.step.Heard? ==> Do(c, s, t) == OnHeard(s, t.step.peer, t.at)
    ensures t.step.SocketGone? ==> Do(c, s, t) == s.(net := Gone(s.net, t.step.peer))
    ensures t.step.Sweep? ==> Do(c, s, t) == SweepAll(c, s, s.net.live, t.at)
    ensures t.step.GoAway? ==> Do(c, s, t) == CloseAll(s, s.net.live, t.at)
    ensures t.step.IceAnswer? ==> Do(c, s, t) == OnIceAnswer(s, t.step.index, t.step.grant, t.at)
  {
  }

  // ---------------------------------------------------------------------------------------------
  // The tables of the object

  function PeersOn(peers: seq<Peer>, ip: string): nat {
    if peers == [] then 0 else (if peers[0].ip == ip then 1 else 0) + PeersOn(peers[1..], ip)
  }

  lemma {:induction false} PeersOnIsSockets(all: seq<Peer>, views: seq<PeerView>, peers: seq<Peer>, numbers: seq<nat>,
          ip: string)
    requires Listing(all, peers, numbers) && |views| == |all| && forall i :: 0 <= i < |all| ==> views[i].ip == all[i].ip
    ensures PeersOn(peers, ip) == BrokerTables.SocketsOn(views, numbers, ip)
  {
    if peers != [] {
      PeersOnIsSockets(all, views, peers[1..], numbers[1..], ip);
    }
  }

  /**
   Whatever was called on a broker: it holds exactly the peers that are not closed, announces
   exactly the ready ones under their own key, and counts them by address.
   */
  lemma TablesOfTheObject(broker: Broker)
    requires broker.Valid()
    ensures forall i :: 0 <= i < |broker.all| ==> (broker.all[i] in broker.peers <==> broker.all[i].phase != Closed)
    ensures forall key :: key in broker.announced ==>
              broker.announced[key] in broker.peers && broker.announced[key].phase == Ready
              && broker.announced[key].publicKey == Some(key)
    ensures forall i :: 0 <= i < |broker.all| && broker.all[i].phase == Ready ==>
              broker.all[i].publicKey.Some? && broker.all[i].publicKey.value in broker.announced
              && broker.announced[broker.all[i].publicKey.value] == broker.all[i]
    ensures forall ip :: CountAt(broker.socketsPerIp, ip, 0) == PeersOn(broker.peers, ip)
                         && (ip in broker.socketsPerIp ==> broker.socketsPerIp[ip] > 0)
  {
    var net := broker.model.net;
    assert BrokerTables.Tables(net);
    hide BrokerTables.SocketsOn;
    forall i | 0 <= i < |broker.all|
      ensures (broker.all[i] in broker.peers <==> broker.all[i].phase != Closed) && broker.all[i].View() == net.all[i]
    {
      ListedByNumber(broker.all, broker.peers, net.live, i);
    }
    forall ip ensures CountAt(broker.socketsPerIp, ip, 0) == PeersOn(broker.peers, ip)
                      && (ip in broker.socketsPerIp ==> broker.socketsPerIp[ip] > 0) {
      PeersOnIsSockets(broker.all, net.all, broker.peers, net.live, ip);
      assert BrokerTables.CountAgrees(net, ip);
    }
  }

  // ---------------------------------------------------------------------------------------------
  // Lists of peers and of their numbers

  ghost predicate Numbered(all: seq<Peer>) {
    forall i :: 0 <= i < |all| ==> all[i].number == i
  }

  /** `peers` are the peers with these numbers, in this order. */
  ghost predicate Listing(all: seq<Peer>, peers: seq<Peer>, numbers: seq<nat>) {
    && |peers| == |numbers|
    && forall i :: 0 <= i < |peers| ==> numbers[i] < |all| && peers[i] == all[numbers[i]]
  }

  lemma ListedByNumber(all: seq<Peer>, peers: seq<Peer>, numbers: seq<nat>, number: nat)
    requires Numbered(all) && Listing(all, peers, numbers) && number < |all|
    ensures all[number] in peers <==> number in numbers
  {
    if all[number] in peers {
      var i :| 0 <= i < |peers| && peers[i] == all[number];
      assert numbers[i] == number;
    }
    if number in numbers {
      var i :| 0 <= i < |numbers| && numbers[i] == number;
      assert peers[i] == all[number];
    }
  }

  lemma {:induction false} WithoutListed(all: seq<Peer>, peers: seq<Peer>, numbers: seq<nat>, number: nat)
    requires Numbered(all) && Listing(all, peers, numbers) && number < |all|
    ensures Listing(all, Without(peers, all[number]), Without(numbers, number))
  {
    if peers != [] {
      WithoutListed(all, peers[1..], numbers[1..], number);
      assert peers[0] == all[number] <==> numbers[0] == number by {
        assert peers[0].number == numbers[0];
      }
      var rest, restNumbers := Without(peers[1..], all[number]), Without(numbers[1..], number);
      if numbers[0] != number {
        ListedOneMore(all, rest, restNumbers, numbers[0]);
      }
    }
  }

  lemma ListedOneMore(all: seq<Peer>, peers: seq<Peer>, numbers: seq<nat>, number: nat)
    requires Listing(all, peers, numbers) && number < |all|
    ensures Listing(all, [all[number]] + peers, [number] + numbers)
  {
  }
}
