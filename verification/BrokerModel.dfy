/**
 What the signalling broker does, as functions on a value.

 A `State` names the peers by the order they were opened in, closed ones included, and keeps
 in `trace` everything the outside saw: frames written to sockets, sockets closed, pings,
 signature checks and calls to the TURN provider, each with the time of the step.
 Limiters appear as the histories of their granted takes, see RateLimit.
 */
module BrokerModel {
  import opened Options
  import opened RateLimit

  datatype Role = Machine | Client

  datatype Phase = New | Challenged | Ready | Closed

  type Key = string

  /** The limits of a broker, the rates as buckets. */
  datatype Limits = Limits(
    maxMessageBytes: nat,
    maxSocketsPerIp: nat,
    connections: Limit,
    frames: Limit,
    relays: Limit,
    announcements: Limit,
    icePerKey: Limit,
    icePerIp: Limit,
    iceAll: Limit,
    heartbeatMs: nat,
    helloTimeoutMs: nat)
  {
    predicate Valid() {
      && connections.Valid() && frames.Valid() && relays.Valid() && announcements.Valid()
      && icePerKey.Valid() && icePerIp.Valid() && iceAll.Valid()
    }
  }

  /** What a peer signs to prove its key. */
  datatype Claim = Claim(name: string, role: Role, publicKey: Key, nonce: string)

  /** The limits, and the two functions the broker gets from elsewhere. */
  datatype Config = Config(
    limits: Limits,
    addressKey: string -> string,
    verify: (Key, Claim, string) -> bool)

  /** A frame of a peer, read by the schema. */
  datatype PeerFrame =
    | Hello(role: Role, publicKey: Key)
    | Prove(signature: string)
    | Relay(id: string, to: Key, envelope: string, signature: string)
    | Ice(id: string)

  /** One WebSocket message: text of some size, which the schema reads or refuses, or not text at all. */
  datatype Incoming = NotText | Text(bytes: nat, frame: Option<PeerFrame>)

  datatype ErrorCode = BadFrame | BadSignature | NotConnected | Replaced | Internal

  datatype Scope = PerIp | PerKey

  datatype ServerFrame =
    | Challenge(broker: string, nonce: string)
    | Announced
    | Delivered(id: string)
    | Relayed(from: Key, envelope: string, signature: string)
    | IceServers(id: string, grant: string)
    | Error(code: ErrorCode, errorId: Option<string>)
    | RateLimited(scope: Scope, retryAfterMs: int, limitedId: Option<string>)

  datatype CloseCode =
    | TooLarge | BadFrameClose | BadSignatureClose | Timeout | ReplacedClose | RateLimitedClose | GoingAway

  datatype Effect =
    | Sent(peer: nat, frame: ServerFrame)
    | SocketClosed(peer: nat, code: CloseCode)
    | Pinged(peer: nat)
    | Checked(peer: nat, claim: Claim, signature: string, passed: bool)
    | TurnAsked(peer: nat, id: string, role: Role, publicKey: Key)

  datatype Stamped = Stamped(at: int, effect: Effect)

  datatype PeerView = PeerView(
    ip: string,
    name: string,
    openedAt: int,
    phase: Phase,
    role: Option<Role>,
    publicKey: Option<Key>,
    nonce: Option<string>,
    lastHeardAt: int,
    lastPingAt: int)

  /** An `ice` question whose answer the TURN provider still owes. */
  datatype Suspended = Suspended(peer: nat, id: string)

  /** The peers and the three tables over them. */
  datatype Net = Net(
    all: seq<PeerView>,
    live: seq<nat>,
    announced: map<Key, nat>,
    socketsPerIp: map<string, int>)
  {
    predicate KnowsHolder(key: Key) {
      key in announced ==> announced[key] < |all|
    }

    function Set(peer: nat, view: PeerView): Net
      requires peer < |all|
    {
      this.(all := all[peer := view])
    }
  }

  /** The takes each limiter granted. */
  datatype Spent = Spent(
    connections: Grants,
    frames: Grants,
    relays: Grants,
    announcements: Grants,
    icePerKey: Grants,
    icePerIp: Grants,
    iceAll: Grants)

  datatype State = State(net: Net, spent: Spent, suspended: seq<Suspended>, trace: seq<Stamped>) {
    /** The peer numbers in use are those of opened peers. */
    ghost predicate Wf() {
      && InRange(net, net.live)
      && (forall key :: key in net.announced ==> net.announced[key] < |net.all|)
      && (forall i :: 0 <= i < |suspended| ==> suspended[i].peer < |net.all|)
    }
  }

  const EMPTY: State :=
    State(Net([], [], map[], map[]), Spent(map[], map[], map[], map[], map[], map[], map[]), [], [])

  // ---------------------------------------------------------------------------------------------
  // The pieces every step is made of

  /** `s` without the occurrences of `x`. */
  function Without<T(==)>(s: seq<T>, x: T): (r: seq<T>)
    ensures forall i :: 0 <= i < |r| ==> r[i] in s && r[i] != x
    ensures forall i :: 0 <= i < |s| && s[i] != x ==> s[i] in r
  {
    if s == [] then []
    else if s[0] == x then Without(s[1..], x)
    else [s[0]] + Without(s[1..], x)
  }

  function CountAt(counts: map<string, int>, ip: string, fallback: int): int {
    if ip in counts then counts[ip] else fallback
  }

  function Show(s: State, effect: Effect, now: int): State {
    s.(trace := s.trace + [Stamped(now, effect)])
  }

  function Send(s: State, peer: nat, frame: ServerFrame, now: int): State {
    Show(s, Sent(peer, frame), now)
  }

  function SetPeer(s: State, peer: nat, view: PeerView): State
    requires peer < |s.net.all|
  {
    s.(net := s.net.Set(peer, view))
  }

  /** The socket is gone: the peer leaves every table it is in. */
  function Gone(n: Net, peer: nat): Net
    requires peer < |n.all|
  {
    if peer !in n.live then n else Unlisted(n, peer)
  }

  function Unlisted(n: Net, peer: nat): Net
    requires peer < |n.all|
  {
    var view := n.all[peer];
    var count := CountAt(n.socketsPerIp, view.ip, 1) - 1;
    Net(
      n.all[peer := view.(phase := Closed)],
      Without(n.live, peer),
      if view.publicKey.Some? && view.publicKey.value in n.announced && n.announced[view.publicKey.value] == peer
      then n.announced - {view.publicKey.value} else n.announced,
      if count <= 0 then n.socketsPerIp - {view.ip} else n.socketsPerIp[view.ip := count])
  }

  function Close(s: State, peer: nat, code: CloseCode, now: int): State
    requires peer < |s.net.all|
  {
    Show(s, SocketClosed(peer, code), now).(net := Gone(s.net, peer))
  }

  function RefuseFrame(s: State, peer: nat, now: int): State
    requires peer < |s.net.all|
  {
    var said := Send(s, peer, Error(BadFrame, None), now);
    if s.net.all[peer].phase == Ready then said else Close(said, peer, BadFrameClose, now)
  }

  // ---------------------------------------------------------------------------------------------
  // What a frame does

  function OnHello(s: State, peer: nat, role: Role, key: Key, nonce: string, now: int): State
    requires peer < |s.net.all|
  {
    var view := s.net.all[peer];
    if view.phase != New then RefuseFrame(s, peer, now)
    else
      var challenged := view.(role := Some(role), publicKey := Some(key), nonce := Some(nonce), phase := Challenged);
      Send(SetPeer(s, peer, challenged), peer, Challenge(view.name, nonce), now)
  }

  function OnRelay(c: Config, s: State, peer: nat, id: string, to: Key, envelope: string, signature: string,
          now: int): State
    requires peer < |s.net.all| && s.net.KnowsHolder(to)
  {
    var view := s.net.all[peer];
    if view.phase != Ready || view.publicKey.None? then RefuseFrame(s, peer, now)
    else
      var key := view.publicKey.value;
      var wait := Wait(c.limits.relays, GrantsOf(s.spent.relays, key), now);
      if wait > 0 then Send(s, peer, RateLimited(PerKey, wait, Some(id)), now)
      else
        var taken := s.(spent := s.spent.(relays := Granted(s.spent.relays, key, now)));
        if to !in s.net.announced || s.net.all[s.net.announced[to]].role == view.role then
          Send(taken, peer, Error(NotConnected, Some(id)), now)
        else
          Send(Send(taken, s.net.announced[to], Relayed(key, envelope, signature), now), peer, Delivered(id), now)
  }

  function OnProve(c: Config, s: State, peer: nat, signature: string, now: int): State
    requires peer < |s.net.all| && s.Wf()
  {
    var view := s.net.all[peer];
    if view.phase != Challenged || view.role.None? || view.publicKey.None? || view.nonce.None? then
      RefuseFrame(s, peer, now)
    else
      var key := view.publicKey.value;
      var claim := Claim(view.name, view.role.value, key, view.nonce.value);
      var passed := c.verify(key, claim, signature);
      var checked := Show(SetPeer(s, peer, view.(nonce := None)), Checked(peer, claim, signature, passed), now);
      if passed then OnProven(c, checked, peer, key, now)
      else Close(Send(checked, peer, Error(BadSignature, None), now), peer, BadSignatureClose, now)
  }

  /** A proven key is announced on this socket, unless it announces too often. */
  function OnProven(c: Config, s: State, peer: nat, key: Key, now: int): State
    requires peer < |s.net.all| && s.net.KnowsHolder(key)
  {
    var wait := Wait(c.limits.announcements, GrantsOf(s.spent.announcements, key), now);
    if wait > 0 then
      Close(Send(s, peer, RateLimited(PerKey, wait, None), now), peer, RateLimitedClose, now)
    else
      var counted := s.(spent := s.spent.(announcements := Granted(s.spent.announcements, key, now)));
      Announce(Replace(counted, key, now), peer, key, now)
  }

  /** An earlier socket of the key hears that it is replaced and closes. */
  function Replace(s: State, key: Key, now: int): (r: State)
    requires s.net.KnowsHolder(key)
    ensures |r.net.all| == |s.net.all|
  {
    if key !in s.net.announced then s
    else
      var previous := s.net.announced[key];
      Close(Send(s, previous, Error(Replaced, None), now), previous, ReplacedClose, now)
  }

  function Announce(s: State, peer: nat, key: Key, now: int): State
    requires peer < |s.net.all|
  {
    Send(s.(net := Listed(s.net, peer, key)), peer, Announced, now)
  }

  function Listed(n: Net, peer: nat, key: Key): Net
    requires peer < |n.all|
  {
    n.(announced := n.announced[key := peer], all := n.all[peer := n.all[peer].(phase := Ready)])
  }

  function OnIce(c: Config, s: State, peer: nat, id: string, now: int): State
    requires peer < |s.net.all|
  {
    var view := s.net.all[peer];
    if view.phase != Ready || view.role.None? || view.publicKey.None? then RefuseFrame(s, peer, now)
    else
      var waitIp := Wait(c.limits.icePerIp, GrantsOf(s.spent.icePerIp, view.ip), now);
      if waitIp > 0 then Send(s, peer, RateLimited(PerIp, waitIp, Some(id)), now)
      else
        var perIp := s.(spent := s.spent.(icePerIp := Granted(s.spent.icePerIp, view.ip, now)));
        OnIceOfIp(c, perIp, peer, id, view.role.value, view.publicKey.value, now)
  }

  function OnIceOfIp(c: Config, s: State, peer: nat, id: string, role: Role, key: Key, now: int): State {
    var wait := Wait(c.limits.icePerKey, GrantsOf(s.spent.icePerKey, key), now);
    if wait > 0 then Send(s, peer, RateLimited(PerKey, wait, Some(id)), now)
    else
      var perKey := s.(spent := s.spent.(icePerKey := Granted(s.spent.icePerKey, key, now)));
      var waitAll := Wait(c.limits.iceAll, GrantsOf(s.spent.iceAll, "all"), now);
      if waitAll > 0 then Send(perKey, peer, RateLimited(PerIp, waitAll, Some(id)), now)
      else
        var asked := perKey.(spent := perKey.spent.(iceAll := Granted(s.spent.iceAll, "all", now)));
        Show(asked.(suspended := s.suspended + [Suspended(peer, id)]), TurnAsked(peer, id, role, key), now)
  }

  function OnFrame(c: Config, s: State, peer: nat, frame: PeerFrame, nonce: string, now: int): State
    requires peer < |s.net.all| && s.Wf()
  {
    match frame
    case Hello(role, key) => OnHello(s, peer, role, key, nonce, now)
    case Prove(signature) => OnProve(c, s, peer, signature, now)
    case Relay(id, to, envelope, signature) => OnRelay(c, s, peer, id, to, envelope, signature, now)
    case Ice(id) => OnIce(c, s, peer, id, now)
  }

  // ---------------------------------------------------------------------------------------------
  // The steps of the broker

  /** How long an address is told to wait; zero lets it in. */
  function AdmitWait(c: Config, s: State, address: string, now: int): int {
    var ip := c.addressKey(address);
    if CountAt(s.net.socketsPerIp, ip, 0) >= c.limits.maxSocketsPerIp then 60_000
    else Wait(c.limits.connections, GrantsOf(s.spent.connections, ip), now)
  }

  function OnAdmit(c: Config, s: State, address: string, now: int): State {
    if AdmitWait(c, s, address, now) > 0 then s
    else s.(spent := s.spent.(connections := Granted(s.spent.connections, c.addressKey(address), now)))
  }

  function Opened(n: Net, ip: string, name: string, now: int): Net {
    Net(n.all + [PeerView(ip, name, now, New, None, None, None, now, now)],
        n.live + [|n.all|],
        n.announced,
        n.socketsPerIp[ip := CountAt(n.socketsPerIp, ip, 0) + 1])
  }

  function OnOpen(c: Config, s: State, address: string, name: string, now: int): State {
    s.(net := Opened(s.net, c.addressKey(address), name, now))
  }

  function OnMessage(c: Config, s: State, peer: nat, message: Incoming, nonce: string, now: int): State
    requires peer < |s.net.all| && s.Wf()
  {
    if s.net.all[peer].phase == Closed then s
    else
      var heard := OnHeard(s, peer, now);
      if message.Text? && message.bytes > c.limits.maxMessageBytes then Close(heard, peer, TooLarge, now)
      else OnSized(c, heard, peer, message, nonce, now)
  }

  /** A message within the size cap, counted against its address before it is read. */
  function OnSized(c: Config, s: State, peer: nat, message: Incoming, nonce: string, now: int): State
    requires peer < |s.net.all| && s.Wf()
  {
    var ip := s.net.all[peer].ip;
    var wait := Wait(c.limits.frames, GrantsOf(s.spent.frames, ip), now);
    if wait > 0 then Send(s, peer, RateLimited(PerIp, wait, None), now)
    else
      var counted := s.(spent := s.spent.(frames := Granted(s.spent.frames, ip, now)));
      if message.NotText? || message.frame.None? then RefuseFrame(counted, peer, now)
      else OnFrame(c, counted, peer, message.frame.value, nonce, now)
  }

  function OnHeard(s: State, peer: nat, now: int): State
    requires peer < |s.net.all|
  {
    SetPeer(s, peer, s.net.all[peer].(lastHeardAt := now))
  }

  function SweepPeer(c: Config, s: State, peer: nat, now: int): State
    requires peer < |s.net.all|
  {
    var view := s.net.all[peer];
    if Expired(c, view, now) then Close(s, peer, Timeout, now)
    else if now - view.lastPingAt >= c.limits.heartbeatMs then
      Show(SetPeer(s, peer, view.(lastPingAt := now)), Pinged(peer), now)
    else s
  }

  /** A peer that proved no key in time, or was silent through two heartbeats. */
  predicate Expired(c: Config, view: PeerView, now: int) {
    || (view.phase != Ready && now - view.openedAt > c.limits.helloTimeoutMs)
    || now - view.lastHeardAt > c.limits.heartbeatMs * 2
  }

  ghost predicate InRange(n: Net, peers: seq<nat>) {
    forall i :: 0 <= i < |peers| ==> peers[i] < |n.all|
  }

  /** The loop of a sweep over a snapshot of the peers. */
  ghost function SweepAll(c: Config, s: State, peers: seq<nat>, now: int): (r: State)
    requires InRange(s.net, peers)
    ensures |r.net.all| == |s.net.all|
  {
    if peers == [] then s
    else
      var n := |peers| - 1;
      SweepPeer(c, SweepAll(c, s, peers[..n], now), peers[n], now)
  }

  /** The loop of `closeAll` over a snapshot of the peers. */
  ghost function CloseAll(s: State, peers: seq<nat>, now: int): (r: State)
    requires InRange(s.net, peers)
    ensures |r.net.all| == |s.net.all|
  {
    if peers == [] then s
    else
      var n := |peers| - 1;
      Close(CloseAll(s, peers[..n], now), peers[n], GoingAway, now)
  }

  /** The TURN provider answered a question: with a grant, or `None` when it failed. */
  function OnIceAnswer(s: State, index: nat, grant: Option<string>, now: int): State
    requires index < |s.suspended| && s.suspended[index].peer < |s.net.all|
  {
    var Suspended(peer, id) := s.suspended[index];
    var rest := s.(suspended := s.suspended[..index] + s.suspended[index + 1..]);
    if s.net.all[peer].phase != Ready then rest
    else Send(rest, peer, if grant.Some? then IceServers(id, grant.value) else Error(Internal, Some(id)), now)
  }

  datatype Step =
    | Admit(address: string)
    | Open(address: string, name: string)
    | Message(peer: nat, message: Incoming, nonce: string)
    | Heard(peer: nat)
    | SocketGone(peer: nat)
    | Sweep
    | GoAway
    | IceAnswer(index: nat, grant: Option<string>)

  datatype Timed = Timed(at: int, step: Step)

  /** Steps name peers that were opened and questions that are open. */
  predicate Enabled(s: State, step: Step) {
    match step
    case Message(peer, _, _) => peer < |s.net.all|
    case Heard(peer) => peer < |s.net.all|
    case SocketGone(peer) => peer < |s.net.all|
    case IceAnswer(index, _) => index < |s.suspended|
    case _ => true
  }

  /** One step; a step that is not enabled changes nothing. */
  ghost function Do(c: Config, s: State, t: Timed): State
    requires s.Wf()
  {
    if !Enabled(s, t.step) then s
    else
      match t.step
      case Admit(address) => OnAdmit(c, s, address, t.at)
      case Open(address, name) => OnOpen(c, s, address, name, t.at)
      case Message(peer, message, nonce) => OnMessage(c, s, peer, message, nonce, t.at)
      case Heard(peer) => OnHeard(s, peer, t.at)
      case SocketGone(peer) => s.(net := Gone(s.net, peer))
      case Sweep => SweepAll(c, s, s.net.live, t.at)
      case GoAway => CloseAll(s, s.net.live, t.at)
      case IceAnswer(index, grant) => OnIceAnswer(s, index, grant, t.at)
  }
}
