/**
 Whole runs of the broker, from the empty state over any steps in any order.
 */
module BrokerRuns {
  import opened Options
  import opened RateLimit
  import opened BrokerModel
  import opened BrokerTables
  import opened BrokerRates
  import opened BrokerLifecycle
  import opened BrokerEffects

  predicate Ordered(run: seq<Timed>) {
    forall i, j :: 0 <= i < j < |run| ==> run[i].at <= run[j].at
  }

  /** The state after a run. The tables agree with the peers in every one. */
  ghost function After(c: Config, run: seq<Timed>): (s: State)
    ensures s.Wf() && Tables(s.net)
  {
    if run == [] then
      EmptyAgrees();
      EMPTY
    else
      var s := After(c, run[..|run| - 1]);
      var t := run[|run| - 1];
      StepKeepsTables(c, s, t);
      StepKeepsWf(c, s, t);
      Do(c, s, t)
  }

  lemma EmptyAgrees()
    ensures EMPTY.Wf() && Tables(EMPTY.net)
  {
    forall ip ensures CountAgrees(EMPTY.net, ip) {
    }
  }

  // ---------------------------------------------------------------------------------------------
  // Open questions name opened peers

  lemma StepKeepsWf(c: Config, s: State, t: Timed)
    requires s.Wf() && Tables(s.net)
    ensures Do(c, s, t).Wf()
  {
    StepKeepsTables(c, s, t);
    StepKeepsPeers(c, s, t);
    StepKeepsQuestions(c, s, t);
  }

  lemma StepKeepsQuestions(c: Config, s: State, t: Timed)
    requires s.Wf() && Tables(s.net)
    ensures forall i :: 0 <= i < |Do(c, s, t).suspended| ==> Do(c, s, t).suspended[i].peer < |s.net.all|
  {
    hide Do;
    if t.step.IceAnswer? {
      IceAnswerReachesTheReady(c, s, t);
    } else if ReadsQuestion(c, s, t) {
      ReadyIceOutcome(c, s, t);
    } else {
      StepAsksNothing(c, s, t);
    }
  }

  lemma StepKeepsPeers(c: Config, s: State, t: Timed)
    requires s.Wf() && Tables(s.net)
    ensures |s.net.all| <= |Do(c, s, t).net.all|
  {
    match t.step {
      case Message(peer, _, _) =>
        if Enabled(s, t.step) {
          MessageKeepsPeers(c, s, t);
        }
      case IceAnswer(_, _) => IceAnswerReachesTheReady(c, s, t);
      case _ =>
    }
  }

  lemma MessageKeepsPeers(c: Config, s: State, t: Timed)
    requires s.Wf() && t.step.Message? && t.step.peer < |s.net.all|
    ensures |Do(c, s, t).net.all| == |s.net.all|
  {
    hide Do;
    var peer := t.step.peer;
    CountedFrame(s, peer, t.at);
    if Reads(c, s, t, peer) {
      ReadIs(c, s, t);
      FrameKeepsPeers(c, Counted(s, peer, t.at), peer, t.step.message.frame.value, t.step.nonce, t.at);
    } else {
      UnreadIs(c, s, t);
    }
  }

  lemma FrameKeepsPeers(c: Config, s: State, peer: nat, frame: PeerFrame, nonce: string, now: int)
    requires s.Wf() && peer < |s.net.all|
    ensures |OnFrame(c, s, peer, frame, nonce, now).net.all| == |s.net.all|
  {
    match frame {
      case Relay(id, to, envelope, signature) => OnRelayIsQuiet(c, s, peer, id, to, envelope, signature, now);
      case Ice(id) => OnIceIsQuiet(c, s, peer, id, now);
      case Hello(_, _) =>
      case Prove(_) =>
    }
  }

  // ---------------------------------------------------------------------------------------------
  // Rates

  ghost function LastAt(run: seq<Timed>, start: int): int {
    if run == [] then start else run[|run| - 1].at
  }

  lemma {:induction false} RunPays(c: Config, run: seq<Timed>, start: int)
    requires c.limits.Valid() && Ordered(run) && (run != [] ==> start <= run[0].at)
    ensures Sound(c, After(c, run), LastAt(run, start))
  {
    if run != [] {
      var before := run[..|run| - 1];
      RunPays(c, before, start);
      StepPays(c, After(c, before), run[|run| - 1], LastAt(before, start));
    }
  }

  /**
   Over every run, the frames relayed from a key in any window of `d` milliseconds are at most
   `perMinute * (1 + d / 60000)`.
   */
  lemma RelayRate(c: Config, run: seq<Timed>, key: Key, perMinute: nat, from: int, d: nat)
    requires c.limits.Valid() && Ordered(run) && c.limits.relays.Allows(perMinute, 60_000)
    ensures CountIn(RelayTimes(After(c, run).trace, key), from, from + d) * 60_000 <= perMinute * (60_000 + d)
  {
    var s := After(c, run);
    var clock := if run == [] then 0 else run[0].at;
    RunPays(c, run, clock);
    assert Within(RelayTimes(s.trace, key), GrantsOf(s.spent.relays, key));
    WindowBound(c.limits.relays, perMinute, GrantsOf(s.spent.relays, key), LastAt(run, clock), from, d);
  }

  /**
   Over every run, the TURN provider is asked at most `perMinute * (1 + d / 60000)` times in any
   window of `d` milliseconds, by all peers together.
   */
  lemma TurnRate(c: Config, run: seq<Timed>, perMinute: nat, from: int, d: nat)
    requires c.limits.Valid() && Ordered(run) && c.limits.iceAll.Allows(perMinute, 60_000)
    ensures CountIn(TurnTimes(After(c, run).trace), from, from + d) * 60_000 <= perMinute * (60_000 + d)
  {
    var s := After(c, run);
    var clock := if run == [] then 0 else run[0].at;
    RunPays(c, run, clock);
    WindowBound(c.limits.iceAll, perMinute, GrantsOf(s.spent.iceAll, "all"), LastAt(run, clock), from, d);
  }

  // ---------------------------------------------------------------------------------------------
  // Lifecycle and attribution

  /** In every run each peer was checked at most once, and every ready peer proved its key. */
  lemma {:induction false} RunIsHonest(c: Config, run: seq<Timed>)
    ensures AllHonest(c, After(c, run))
  {
    if run != [] {
      var before := run[..|run| - 1];
      RunIsHonest(c, before);
      StepAdvances(c, After(c, before), run[|run| - 1]);
    }
  }

  function Rank(phase: Phase): nat {
    match phase
    case New => 0
    case Challenged => 1
    case Ready => 2
    case Closed => 3
  }

  /** Along a run a peer never goes back a phase, and keeps its address, its name and the key it claimed. */
  lemma {:induction false} PeersOnlyAdvance(c: Config, run: seq<Timed>, n: nat, peer: nat)
    requires n <= |run| && peer < |After(c, run[..n]).net.all|
    ensures peer < |After(c, run).net.all|
    ensures var before := After(c, run[..n]).net.all[peer];
            var after := After(c, run).net.all[peer];
            && Rank(before.phase) <= Rank(after.phase)
            && after.ip == before.ip && after.name == before.name && after.openedAt == before.openedAt
            && (before.phase != New ==> after.role == before.role && after.publicKey == before.publicKey)
    decreases |run|
  {
    hide Do;
    if n == |run| {
      assert run[..n] == run;
    } else {
      var shorter := run[..|run| - 1];
      assert shorter[..n] == run[..n];
      PeersOnlyAdvance(c, shorter, n, peer);
      RunIsHonest(c, shorter);
      StepAdvances(c, After(c, shorter), run[|run| - 1]);
    }
  }

  /** The trace only grows. */
  lemma {:induction false} TraceGrows(c: Config, run: seq<Timed>, n: nat)
    requires n <= |run|
    ensures After(c, run[..n]).trace <= After(c, run).trace
    decreases |run|
  {
    hide Do;
    if n == |run| {
      assert run[..n] == run;
    } else {
      var shorter := run[..|run| - 1];
      assert shorter[..n] == run[..n];
      TraceGrows(c, shorter, n);
      RunIsHonest(c, shorter);
      StepAdvances(c, After(c, shorter), run[|run| - 1]);
    }
  }

  /**
   Every frame relayed in a run was delivered by one step of it: for a ready peer, to the ready
   holder of the addressed key.
   */
  lemma {:induction false} RelaysAreAttributed(c: Config, run: seq<Timed>, i: nat)
    returns (n: nat, peer: nat, holder: nat)
    requires i < |After(c, run).trace| && IsRelayed(After(c, run).trace[i].effect)
    ensures n < |run|
    ensures var s := After(c, run[..n]);
            && Delivers(c, s, run[n], peer, holder)
            && Relays(s, Do(c, s, run[n]), run[n], peer, holder)
            && i == |s.trace|
            && s.net.all[holder].phase == Ready
            && s.net.all[holder].publicKey == Some(run[n].step.message.frame.value.to)
            && Vouched(c, s.trace, peer, s.net.all[peer])
  {
    hide Do, Relays, Delivers, Vouched;
    var before := run[..|run| - 1];
    var s := After(c, before);
    RunIsHonest(c, before);
    StepAdvances(c, s, run[|run| - 1]);
    if i < |s.trace| {
      n, peer, holder := RelaysAreAttributed(c, before, i);
      assert before[..n] == run[..n];
    } else {
      n := |run| - 1;
      peer, holder := StepRelays(c, s, run[n], i);
    }
  }

  lemma StepRelays(c: Config, s: State, t: Timed, i: nat) returns (peer: nat, holder: nat)
    requires s.Wf() && Tables(s.net) && AllHonest(c, s)
    requires |s.trace| <= i < |Do(c, s, t).trace| && IsRelayed(Do(c, s, t).trace[i].effect)
    ensures Delivers(c, s, t, peer, holder) && Relays(s, Do(c, s, t), t, peer, holder) && i == |s.trace|
    ensures s.net.all[holder].phase == Ready
    ensures s.net.all[holder].publicKey == Some(t.step.message.frame.value.to)
    ensures Vouched(c, s.trace, peer, s.net.all[peer])
  {
    hide Do, Vouched;
    OnlyRelaysRelay(c, s, t, i);
    peer, holder :| && Delivers(c, s, t, peer, holder)
                    && Relays(s, Do(c, s, t), t, peer, holder)
                    && s.net.all[holder].phase == Ready
                    && s.net.all[holder].publicKey == Some(t.step.message.frame.value.to);
    assert Honest(c, s.trace, peer, s.net.all[peer]);
    assert Do(c, s, t).trace[|s.trace| + 1].effect.frame.Delivered?;
  }

  // ---------------------------------------------------------------------------------------------
  // The socket cap

  function Sockets(s: State, ip: string): int {
    CountAt(s.net.socketsPerIp, ip, 0)
  }

  predicate Opens(c: Config, t: Timed, ip: string) {
    t.step.Open? && c.addressKey(t.step.address) == ip
  }

  /** How many sockets of an address a stretch of a run opens. */
  function OpensOf(c: Config, run: seq<Timed>, ip: string): nat {
    if run == [] then 0
    else OpensOf(c, run[..|run| - 1], ip) + if Opens(c, run[|run| - 1], ip) then 1 else 0
  }

  lemma {:induction false} FewerSockets(all: seq<PeerView>, some: seq<nat>, peers: seq<nat>, ip: string)
    requires Increasing(some) && Increasing(peers)
    requires forall i :: 0 <= i < |some| ==> some[i] in peers
    ensures SocketsOn(all, some, ip) <= SocketsOn(all, peers, ip)
    decreases |peers|
  {
    if some != [] {
      assert some[0] in peers;
      var rest := if some[0] == peers[0] then some[1..] else some;
      forall i | 0 <= i < |rest| ensures rest[i] in peers[1..] {
        var j :| 0 <= j < |peers| && peers[j] == rest[i];
        assert peers[j] == peers[1..][j - 1];
      }
      FewerSockets(all, rest, peers[1..], ip);
    }
  }

  /** Only an open of the address adds a socket to it. */
  lemma StepAddsSockets(c: Config, s: State, t: Timed, ip: string)
    requires s.Wf() && Tables(s.net) && AllHonest(c, s)
    ensures Sockets(Do(c, s, t), ip) <= Sockets(s, ip) + if Opens(c, t, ip) then 1 else 0
  {
    var after := Do(c, s, t);
    StepKeepsTables(c, s, t);
    StepAdvances(c, s, t);
    assert CountAgrees(s.net, ip) && CountAgrees(after.net, ip);
    if !t.step.Open? {
      forall i | 0 <= i < |after.net.live| ensures after.net.live[i] in s.net.live {
        var peer := after.net.live[i];
        assert Moves(s.net.all[peer], after.net.all[peer]);
      }
      FewerSockets(after.net.all, after.net.live, s.net.live, ip);
      SocketsOnSame(s.net.all, after.net.all, s.net.live, ip);
    }
  }

  lemma {:induction false} RunAddsSockets(c: Config, run: seq<Timed>, n: nat, ip: string)
    requires n <= |run|
    ensures Sockets(After(c, run), ip) <= Sockets(After(c, run[..n]), ip) + OpensOf(c, run[n..], ip)
    decreases |run|
  {
    if n == |run| {
      assert run[..n] == run;
    } else {
      var shorter := run[..|run| - 1];
      assert shorter[..n] == run[..n] && shorter[n..] == run[n..][..|run[n..]| - 1];
      RunAddsSockets(c, shorter, n, ip);
      RunIsHonest(c, shorter);
      StepAddsSockets(c, After(c, shorter), run[|run| - 1], ip);
    }
  }

  /** Step `n` lets an address of `ip` in. */
  ghost predicate Admits(c: Config, run: seq<Timed>, n: nat, ip: string) {
    && n < |run| && run[n].step.Admit? && c.addressKey(run[n].step.address) == ip
    && AdmitWait(c, After(c, run[..n]), run[n].step.address, run[n].at) == 0
  }

  lemma SinceAdmission(c: Config, run: seq<Timed>, m: nat, n: nat, ip: string)
    requires m < n <= |run| && Admits(c, run, m, ip)
    ensures Sockets(After(c, run[..n]), ip) < c.limits.maxSocketsPerIp + OpensOf(c, run[m + 1..n], ip)
  {
    hide After, Do;
    var upTo := run[..n];
    assert upTo[..m] == run[..m];
    RunAddsSockets(c, upTo, m, ip);
    assert upTo[m..] == [run[m]] + run[m + 1..n];
    OpensOfCons(c, run[m], run[m + 1..n], ip);
  }

  /** After an open, the address is over its cap by at most the opens that came between the admission and the open. */
  lemma OpenedAfterAdmission(c: Config, run: seq<Timed>, m: nat, n: nat, ip: string)
    requires m < n < |run| && Admits(c, run, m, ip) && Opens(c, run[n], ip)
    ensures Sockets(After(c, run[..n + 1]), ip) <= c.limits.maxSocketsPerIp + OpensOf(c, run[m + 1..n], ip)
  {
    hide Do;
    SinceAdmission(c, run, m, n, ip);
    OpenAddsOne(c, run, n, ip);
  }

  lemma {:induction false} OpensOfCons(c: Config, t: Timed, run: seq<Timed>, ip: string)
    ensures OpensOf(c, [t] + run, ip) == OpensOf(c, run, ip) + if Opens(c, t, ip) then 1 else 0
  {
    if run != [] {
      assert ([t] + run)[..|run|] == [t] + run[..|run| - 1];
      OpensOfCons(c, t, run[..|run| - 1], ip);
    } else {
      assert [t] + run == [t] && [t][..0] == [];
      assert OpensOf(c, [], ip) == 0;
    }
  }

  lemma AfterOneMore(c: Config, run: seq<Timed>, t: Timed)
    ensures After(c, run + [t]) == Do(c, After(c, run), t)
  {
    hide Do;
    assert (run + [t])[..|run|] == run;
  }

  lemma AfterNext(c: Config, run: seq<Timed>, n: nat)
    requires n < |run|
    ensures After(c, run[..n + 1]) == Do(c, After(c, run[..n]), run[n])
  {
    assert run[..n + 1] == run[..n] + [run[n]];
    AfterOneMore(c, run[..n], run[n]);
  }

  lemma OpenAddsOne(c: Config, run: seq<Timed>, n: nat, ip: string)
    requires n < |run| && Opens(c, run[n], ip)
    ensures Sockets(After(c, run[..n + 1]), ip) == Sockets(After(c, run[..n]), ip) + 1
  {
    hide After;
    AfterNext(c, run, n);
  }

  /** The cap on the sockets of an address is kept throughout a run. */
  ghost predicate WithinCap(c: Config, run: seq<Timed>, ip: string) {
    forall n: nat :: n <= |run| ==> Sockets(After(c, run[..n]), ip) <= c.limits.maxSocketsPerIp
  }

  /** Each open of an address finds fewer sockets than its cap. */
  ghost predicate FindsRoom(c: Config, run: seq<Timed>, ip: string) {
    forall n: nat :: n < |run| && Opens(c, run[n], ip) ==>
      Sockets(After(c, run[..n]), ip) < c.limits.maxSocketsPerIp
  }

  /** The broker checks the cap when it admits, not when it opens: the cap holds exactly when each open finds room. */
  lemma CapHoldsIffRoom(c: Config, run: seq<Timed>, ip: string)
    ensures WithinCap(c, run, ip) <==> FindsRoom(c, run, ip)
  {
    hide After;
    if WithinCap(c, run, ip) {
      forall n: nat | n < |run| && Opens(c, run[n], ip)
        ensures Sockets(After(c, run[..n]), ip) < c.limits.maxSocketsPerIp
      {
        OpenAddsOne(c, run, n, ip);
        assert Sockets(After(c, run[..n + 1]), ip) <= c.limits.maxSocketsPerIp;
      }
    }
    if FindsRoom(c, run, ip) {
      forall n: nat | n <= |run| ensures Sockets(After(c, run[..n]), ip) <= c.limits.maxSocketsPerIp {
        RoomKeepsCap(c, run, n, ip);
      }
    }
  }

  lemma {:induction false} RoomKeepsCap(c: Config, run: seq<Timed>, n: nat, ip: string)
    requires FindsRoom(c, run, ip) && n <= |run|
    ensures Sockets(After(c, run[..n]), ip) <= c.limits.maxSocketsPerIp
  {
    hide Do;
    if n == 0 {
      assert run[..0] == [];
    } else if Opens(c, run[n - 1], ip) {
      OpenAddsOne(c, run, n - 1, ip);
    } else {
      RoomKeepsCap(c, run, n - 1, ip);
      AfterNext(c, run, n - 1);
      RunIsHonest(c, run[..n - 1]);
      StepAddsSockets(c, After(c, run[..n - 1]), run[n - 1], ip);
    }
  }

  /** Step `m` admits what step `n` opens, and nothing else opens on `ip` between the two. */
  ghost predicate OwnAdmission(c: Config, run: seq<Timed>, m: nat, n: nat, ip: string) {
    m < n <= |run| && Admits(c, run, m, ip) && OpensOf(c, run[m + 1..n], ip) == 0
  }

  ghost predicate EachAdmitted(c: Config, run: seq<Timed>, ip: string) {
    forall n: nat :: n < |run| && Opens(c, run[n], ip) ==> exists m: nat :: OwnAdmission(c, run, m, n, ip)
  }

  /** When the server lets nothing else in between an admission and its open, each open finds room and the cap holds. */
  lemma CapHolds(c: Config, run: seq<Timed>, ip: string)
    requires EachAdmitted(c, run, ip)
    ensures WithinCap(c, run, ip)
  {
    hide After;
    forall n: nat | n < |run| && Opens(c, run[n], ip)
      ensures Sockets(After(c, run[..n]), ip) < c.limits.maxSocketsPerIp
    {
      var m: nat :| OwnAdmission(c, run, m, n, ip);
      SinceAdmission(c, run, m, n, ip);
    }
    CapHoldsIffRoom(c, run, ip);
  }

  lemma AdmittedOnce(c: Config, s: State, address: string, now: int)
    requires AdmitWait(c, s, address, now) == 0
    ensures var admit := Timed(now, Admit(address));
            s.Wf() ==> Do(c, s, admit) == s.(spent := s.spent.(
              connections := Granted(s.spent.connections, c.addressKey(address), now)))
  {
  }

  /** Two admissions of an address at once, before any open. */
  lemma AdmittedTwice(c: Config, address: string)
    requires c.limits.Valid() && c.limits.maxSocketsPerIp == 1
    requires c.limits.connections.msPerToken * 2.0 <= c.limits.connections.windowMs as real
    ensures var admit := Timed(0, Admit(address));
            && AdmitWait(c, After(c, []), address, 0) == 0
            && AdmitWait(c, After(c, [admit]), address, 0) == 0
            && After(c, [admit, admit]).net == EMPTY.net
  {
    hide Do;
    var admit := Timed(0, Admit(address));
    AfterOneMore(c, [], admit);
    AfterOneMore(c, [admit], admit);
    assert [] + [admit] == [admit] && [admit] + [admit] == [admit, admit];
    var one := After(c, [admit]);
    AdmittedOnce(c, EMPTY, address, 0);
    assert GrantsOf(one.spent.connections, c.addressKey(address)) == [0] && [0][..0] == [];
    AdmittedOnce(c, one, address, 0);
  }

  /** Without that the cap can be passed: two admissions before the first open let two sockets past a cap of one. */
  lemma TwoAdmissionsPassTheCap(c: Config, address: string, name: string)
    requires c.limits.Valid() && c.limits.maxSocketsPerIp == 1
    requires c.limits.connections.msPerToken * 2.0 <= c.limits.connections.windowMs as real
    ensures var run := [Timed(0, Admit(address)), Timed(0, Admit(address)),
                        Timed(0, Open(address, name)), Timed(0, Open(address, name))];
            var ip := c.addressKey(address);
            Admits(c, run, 0, ip) && Admits(c, run, 1, ip) && Sockets(After(c, run), ip) == 2
  {
    hide After;
    var admit, opening := Timed(0, Admit(address)), Timed(0, Open(address, name));
    var run := [admit, admit, opening, opening];
    assert run[..0] == [] && run[..1] == [admit];
    AdmittedTwice(c, address);
    OpenedTwice(c, [admit, admit], address, name);
    assert [admit, admit] + [opening, opening] == run;
  }

  lemma OpenedOnce(c: Config, run: seq<Timed>, address: string, name: string)
    ensures var ip := c.addressKey(address);
            Sockets(After(c, run + [Timed(0, Open(address, name))]), ip) == Sockets(After(c, run), ip) + 1
  {
    hide After;
    AfterOneMore(c, run, Timed(0, Open(address, name)));
  }

  lemma OpenedTwice(c: Config, run: seq<Timed>, address: string, name: string)
    requires Sockets(After(c, run), c.addressKey(address)) == 0
    ensures var opening := Timed(0, Open(address, name));
            Sockets(After(c, run + [opening, opening]), c.addressKey(address)) == 2
  {
    hide After;
    var opening := Timed(0, Open(address, name));
    OpenedOnce(c, run, address, name);
    OpenedOnce(c, run + [opening], address, name);
    assert run + [opening] + [opening] == run + [opening, opening];
  }
}
