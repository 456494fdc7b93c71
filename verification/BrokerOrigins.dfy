/**
 Where what the broker holds of a peer comes from, and what its questions cost: the role and key of
 a peer are those of the one hello of its own that was read, and over every run the questions of a
 key, and of an address, keep their rates.
 */
module BrokerOrigins {
  import opened Options
  import opened RateLimit
  import opened BrokerModel
  import opened BrokerTables
  import opened BrokerRates
  import opened BrokerLifecycle
  import opened BrokerEffects
  import opened BrokerSteps
  import opened BrokerRuns

  // ---------------------------------------------------------------------------------------------
  // Who says who a peer is

  /** The step is a hello that is read from a new peer. */
  predicate Introduces(c: Config, s: State, t: Timed, peer: nat, role: Role, key: Key) {
    && Reads(c, s, t, peer) && t.step.message.frame.value == Hello(role, key) && s.net.all[peer].phase == New
  }

  /** What was said of the peer stays said, and a challenge keeps its nonce. */
  predicate KeepsSaid(before: PeerView, after: PeerView) {
    && after.role == before.role && after.publicKey == before.publicKey
    && (after.phase == Challenged ==> before.phase == Challenged && after.nonce == before.nonce)
    && (after.phase == Ready ==> before.phase in {Challenged, Ready})
  }

  ghost predicate AllKeepSaid(s: State, after: State) {
    && |s.net.all| == |after.net.all|
    && forall peer: nat :: peer < |s.net.all| ==> KeepsSaid(s.net.all[peer], after.net.all[peer])
  }

  lemma QuietKeepsSaid(s: State, after: State)
    requires Quiet(s, after)
    ensures AllKeepSaid(s, after)
  {
  }

  lemma MessageKeepsSaid(c: Config, s: State, t: Timed)
    requires s.Wf() && Tables(s.net) && t.step.Message? && t.step.peer < |s.net.all|
    requires Reads(c, s, t, t.step.peer) && t.step.message.frame.value.Hello? ==> s.net.all[t.step.peer].phase != New
    ensures AllKeepSaid(s, Do(c, s, t))
  {
    hide Do, Tables, Wait;
    if Reads(c, s, t, t.step.peer) {
      match t.step.message.frame.value {
        case Hello(_, _) => HelloOutcome(c, s, t);
        case Prove(_) => ProveOutcome(c, s, t);
        case Relay(_, _, _, _) => RelayOutcome(c, s, t);
        case Ice(_) => IceOutcome(c, s, t);
      }
    } else {
      UnreadOutcome(c, s, t);
    }
  }

  /** A peer is what it was, or newly opened and nobody, or just said who it is. */
  lemma StepKeepsSaid(c: Config, s: State, t: Timed, peer: nat)
    requires s.Wf() && Tables(s.net) && peer < |Do(c, s, t).net.all|
    ensures var view := Do(c, s, t).net.all[peer];
            || (peer < |s.net.all| && KeepsSaid(s.net.all[peer], view))
            || (view.phase == New && view.role == None && view.publicKey == None)
            || (view.role.Some? && view.publicKey.Some? && view.phase == Challenged
                && Introduces(c, s, t, peer, view.role.value, view.publicKey.value)
                && view.nonce == Some(t.step.nonce))
  {
    hide Tables;
    if Enabled(s, t.step) {
      match t.step {
        case Message(_, _, _) =>
          hide Do;
          if Reads(c, s, t, t.step.peer) && t.step.message.frame.value.Hello? && s.net.all[t.step.peer].phase == New {
            HelloOutcome(c, s, t);
          } else {
            MessageKeepsSaid(c, s, t);
          }
        case Sweep =>
          SweepAllIsQuiet(c, s, s.net.live, t.at);
          QuietKeepsSaid(s, Do(c, s, t));
        case GoAway =>
          CloseAllIsQuiet(s, s.net.live, t.at);
          QuietKeepsSaid(s, Do(c, s, t));
        case IceAnswer(_, _) => IceAnswerReachesTheReady(c, s, t);
        case _ =>
      }
    }
  }

  /** Step `n` of a run is a hello of a new peer that is read. */
  ghost predicate IntroducedBy(c: Config, run: seq<Timed>, n: nat, peer: nat, role: Role, key: Key) {
    n < |run| && Introduces(c, After(c, run[..n]), run[n], peer, role, key)
  }

  /**
   A peer with a role or key, or past `New`, said both in one hello of its own that was read; its
   challenge has the nonce of that step.
   */
  lemma {:induction false} PeersAreIntroduced(c: Config, run: seq<Timed>, peer: nat) returns (n: nat)
    requires peer < |After(c, run).net.all|
    requires var view := After(c, run).net.all[peer];
             view.role.Some? || view.publicKey.Some? || view.phase in {Challenged, Ready}
    ensures var view := After(c, run).net.all[peer];
            && view.role.Some? && view.publicKey.Some?
            && IntroducedBy(c, run, n, peer, view.role.value, view.publicKey.value)
            && (view.phase == Challenged ==> view.nonce == Some(run[n].step.nonce))
  {
    hide Do, Introduces;
    var before, t := run[..|run| - 1], run[|run| - 1];
    var s := After(c, before);
    StepKeepsSaid(c, s, t, peer);
    if peer < |s.net.all| && KeepsSaid(s.net.all[peer], After(c, run).net.all[peer]) {
      n := PeersAreIntroduced(c, before, peer);
      assert before[..n] == run[..n];
    } else {
      n := |run| - 1;
    }
  }

  /** No peer is introduced twice. */
  lemma IntroducedOnce(c: Config, run: seq<Timed>, n: nat, m: nat, peer: nat, role: Role, key: Key,
          other: Role, otherKey: Key)
    requires IntroducedBy(c, run, n, peer, role, key) && IntroducedBy(c, run, m, peer, other, otherKey)
    ensures n == m
  {
    if n < m {
      NotNewLater(c, run, n, m, peer, role, key);
    } else if m < n {
      NotNewLater(c, run, m, n, peer, other, otherKey);
    }
  }

  lemma NotNewLater(c: Config, run: seq<Timed>, n: nat, m: nat, peer: nat, role: Role, key: Key)
    requires n < m <= |run| && IntroducedBy(c, run, n, peer, role, key)
    ensures peer < |After(c, run[..m]).net.all| && After(c, run[..m]).net.all[peer].phase != New
  {
    hide Do, After;
    HelloOutcome(c, After(c, run[..n]), run[n]);
    AfterNext(c, run, n);
    assert run[..m][..n + 1] == run[..n + 1];
    PeersOnlyAdvance(c, run[..m], n + 1, peer);
  }

  // ---------------------------------------------------------------------------------------------
  // What questions cost

  /** When questions of a key went to the TURN provider. */
  function AskTimes(trace: seq<Stamped>, key: Key): seq<int> {
    if trace == [] then []
    else
      var before, last := AskTimes(trace[..|trace| - 1], key), trace[|trace| - 1];
      if last.effect.TurnAsked? && last.effect.publicKey == key then before + [last.at] else before
  }

  /** When questions of peers of an address did. */
  function AskTimesFrom(trace: seq<Stamped>, all: seq<PeerView>, ip: string): seq<int> {
    if trace == [] then []
    else
      var before, last := AskTimesFrom(trace[..|trace| - 1], all, ip), trace[|trace| - 1];
      if last.effect.TurnAsked? && last.effect.peer < |all| && all[last.effect.peer].ip == ip then before + [last.at]
      else before
  }

  ghost predicate AskersOpened(trace: seq<Stamped>, peers: nat) {
    forall i :: 0 <= i < |trace| && trace[i].effect.TurnAsked? ==> trace[i].effect.peer < peers
  }

  /** The addresses of the peers stay, and more may come. */
  ghost predicate SameAddresses(all: seq<PeerView>, more: seq<PeerView>) {
    |all| <= |more| && forall i :: 0 <= i < |all| ==> more[i].ip == all[i].ip
  }

  lemma {:induction false} AddressesTell(trace: seq<Stamped>, all: seq<PeerView>, more: seq<PeerView>, ip: string)
    requires AskersOpened(trace, |all|) && SameAddresses(all, more)
    ensures AskTimesFrom(trace, more, ip) == AskTimesFrom(trace, all, ip)
  {
    if trace != [] {
      AddressesTell(trace[..|trace| - 1], all, more, ip);
    }
  }

  ghost predicate NoneAsked(trace: seq<Stamped>, more: seq<Stamped>) {
    trace <= more && forall i :: |trace| <= i < |more| ==> !more[i].effect.TurnAsked?
  }

  lemma {:induction false} NoneAskedTimes(trace: seq<Stamped>, more: seq<Stamped>, all: seq<PeerView>, key: Key,
          ip: string)
    requires NoneAsked(trace, more)
    ensures AskTimes(more, key) == AskTimes(trace, key) && AskTimesFrom(more, all, ip) == AskTimesFrom(trace, all, ip)
    decreases |more|
  {
    if |more| == |trace| {
      assert more == trace;
    } else {
      NoneAskedTimes(trace, more[..|more| - 1], all, key, ip);
    }
  }

  ghost predicate AsksPaid(s: State) {
    && AskersOpened(s.trace, |s.net.all|)
    && (forall key :: Within(AskTimes(s.trace, key), GrantsOf(s.spent.icePerKey, key)))
    && forall ip :: Within(AskTimesFrom(s.trace, s.net.all, ip), GrantsOf(s.spent.icePerIp, ip))
  }

  lemma SilentStepPays(s: State, after: State)
    requires AsksPaid(s) && NoneAsked(s.trace, after.trace) && SameAddresses(s.net.all, after.net.all)
    requires forall key :: GrantsMore(GrantsOf(s.spent.icePerKey, key), GrantsOf(after.spent.icePerKey, key))
    requires forall ip :: GrantsMore(GrantsOf(s.spent.icePerIp, ip), GrantsOf(after.spent.icePerIp, ip))
    ensures AsksPaid(after)
  {
    forall key ensures Within(AskTimes(after.trace, key), GrantsOf(after.spent.icePerKey, key)) {
      NoneAskedTimes(s.trace, after.trace, s.net.all, key, "");
      WithinMore(AskTimes(s.trace, key), GrantsOf(s.spent.icePerKey, key), GrantsOf(after.spent.icePerKey, key));
    }
    forall ip ensures Within(AskTimesFrom(after.trace, after.net.all, ip), GrantsOf(after.spent.icePerIp, ip)) {
      NoneAskedTimes(s.trace, after.trace, after.net.all, "", ip);
      AddressesTell(s.trace, s.net.all, after.net.all, ip);
      WithinMore(AskTimesFrom(s.trace, s.net.all, ip), GrantsOf(s.spent.icePerIp, ip),
        GrantsOf(after.spent.icePerIp, ip));
    }
  }

  predicate GrantsMore(grants: seq<int>, more: seq<int>) {
    more == grants || (|more| == |grants| + 1 && more[..|grants|] == grants)
  }

  lemma WithinMore(times: seq<int>, grants: seq<int>, more: seq<int>)
    requires Within(times, grants) && GrantsMore(grants, more)
    ensures Within(times, more)
  {
    if more != grants {
      WithinBoth(times, grants, more[|grants|]);
      assert more == grants + [more[|grants|]];
    }
  }

  lemma AskedStepPays(s: State, after: State, peer: nat, id: string, role: Role, key: Key, ip: string, now: int)
    requires AsksPaid(s) && peer < |s.net.all| && s.net.all[peer].ip == ip && SameAddresses(s.net.all, after.net.all)
    requires after.trace == s.trace + [Stamped(now, TurnAsked(peer, id, role, key))]
    requires after.spent.icePerKey == Granted(s.spent.icePerKey, key, now)
    requires after.spent.icePerIp == Granted(s.spent.icePerIp, ip, now)
    ensures AsksPaid(after)
  {
    assert after.trace[..|s.trace|] == s.trace;
    forall other ensures Within(AskTimes(after.trace, other), GrantsOf(after.spent.icePerKey, other)) {
      assert Within(AskTimes(s.trace, other), GrantsOf(s.spent.icePerKey, other));
      WithinBoth(AskTimes(s.trace, other), GrantsOf(s.spent.icePerKey, other), now);
    }
    forall other
      ensures Within(AskTimesFrom(after.trace, after.net.all, other), GrantsOf(after.spent.icePerIp, other))
    {
      AddressesTell(s.trace, s.net.all, after.net.all, other);
      assert Within(AskTimesFrom(s.trace, s.net.all, other), GrantsOf(s.spent.icePerIp, other));
      WithinBoth(AskTimesFrom(s.trace, s.net.all, other), GrantsOf(s.spent.icePerIp, other), now);
    }
  }

  lemma StepPaysForAsks(c: Config, s: State, t: Timed)
    requires s.Wf() && Tables(s.net) && AllHonest(c, s) && AsksPaid(s)
    ensures AsksPaid(Do(c, s, t))
  {
    hide Do, Tables, AsksPaid, Within, Wait;
    StepAdvances(c, s, t);
    var after := Do(c, s, t);
    assert SameAddresses(s.net.all, after.net.all);
    if ReadsQuestion(c, s, t) {
      QuestionPays(c, s, t);
    } else {
      forall i | |s.trace| <= i < |after.trace| ensures !after.trace[i].effect.TurnAsked? {
        if after.trace[i].effect.TurnAsked? {
          OnlyQuestionsAsk(c, s, t, i);
        }
      }
      if t.step.IceAnswer? {
        AnswersCostNothing(c, s, t);
      } else {
        StepAsksNothing(c, s, t);
      }
      SilentStepPays(s, after);
    }
  }

  lemma AnswersCostNothing(c: Config, s: State, t: Timed)
    requires s.Wf() && t.step.IceAnswer?
    ensures Do(c, s, t).spent == s.spent
  {
  }

  lemma QuestionPays(c: Config, s: State, t: Timed)
    requires s.Wf() && Tables(s.net) && AsksPaid(s) && ReadsQuestion(c, s, t)
    ensures AsksPaid(Do(c, s, t))
  {
    hide Do, Tables, AsksPaid, Within, Wait;
    IceOutcome(c, s, t);
    var after, view := Do(c, s, t), s.net.all[t.step.peer];
    if after.trace[|s.trace|].effect.TurnAsked? {
      var id := t.step.message.frame.value.id;
      AskedStepPays(s, after, t.step.peer, id, view.role.value, view.publicKey.value, view.ip, t.at);
    } else {
      SilentStepPays(s, after);
    }
  }

  lemma {:induction false} RunPaysForAsks(c: Config, run: seq<Timed>)
    ensures AsksPaid(After(c, run))
  {
    hide Do;
    if run != [] {
      RunIsHonest(c, run[..|run| - 1]);
      RunPaysForAsks(c, run[..|run| - 1]);
      hide AsksPaid;
      StepPaysForAsks(c, After(c, run[..|run| - 1]), run[|run| - 1]);
    }
  }

  /** Over every run the questions of a key in any `d` milliseconds are at most `perMinute * (1 + d / 60000)`. */
  lemma KeyAskRate(c: Config, run: seq<Timed>, key: Key, perMinute: nat, from: int, d: nat)
    requires c.limits.Valid() && Ordered(run) && c.limits.icePerKey.Allows(perMinute, 60_000)
    ensures CountIn(AskTimes(After(c, run).trace, key), from, from + d) * 60_000 <= perMinute * (60_000 + d)
  {
    hide Do;
    var s := After(c, run);
    var clock := if run == [] then 0 else run[0].at;
    RunPays(c, run, clock);
    RunPaysForAsks(c, run);
    assert Within(AskTimes(s.trace, key), GrantsOf(s.spent.icePerKey, key));
    WindowBound(c.limits.icePerKey, perMinute, GrantsOf(s.spent.icePerKey, key), LastAt(run, clock), from, d);
  }

  /** So are those of all peers of one address together, whatever their keys. */
  lemma AddressAskRate(c: Config, run: seq<Timed>, ip: string, perMinute: nat, from: int, d: nat)
    requires c.limits.Valid() && Ordered(run) && c.limits.icePerIp.Allows(perMinute, 60_000)
    ensures var s := After(c, run);
            CountIn(AskTimesFrom(s.trace, s.net.all, ip), from, from + d) * 60_000 <= perMinute * (60_000 + d)
  {
    hide Do;
    var s := After(c, run);
    var clock := if run == [] then 0 else run[0].at;
    RunPays(c, run, clock);
    RunPaysForAsks(c, run);
    assert Within(AskTimesFrom(s.trace, s.net.all, ip), GrantsOf(s.spent.icePerIp, ip));
    WindowBound(c.limits.icePerIp, perMinute, GrantsOf(s.spent.icePerIp, ip), LastAt(run, clock), from, d);
  }
}
