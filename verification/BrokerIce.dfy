/**
 Questions for ICE servers over whole runs. A peer's question goes to the TURN provider, waits
 there, and comes back as one answer to that peer, or as none when the peer is no longer ready.
 */
module BrokerIce {
  import opened Options
  import opened RateLimit
  import opened BrokerModel
  import opened BrokerTables
  import opened BrokerLifecycle
  import opened BrokerEffects
  import opened BrokerRuns

  predicate Asks(effect: Effect, question: Suspended) {
    effect.TurnAsked? && Suspended(effect.peer, effect.id) == question
  }

  predicate Answers(effect: Effect, question: Suspended) {
    IsAnswer(effect) && AnswerTo(effect) == question
  }

  /** How often a trace asks the provider a question. */
  function Asked(trace: seq<Stamped>, question: Suspended): nat {
    if trace == [] then 0
    else
      Asked(trace[..|trace| - 1], question) + if Asks(trace[|trace| - 1].effect, question) then 1 else 0
  }

  /** How often a trace answers a question. */
  function Answered(trace: seq<Stamped>, question: Suspended): nat {
    if trace == [] then 0
    else
      Answered(trace[..|trace| - 1], question) + if Answers(trace[|trace| - 1].effect, question) then 1 else 0
  }

  /** How often a question waits for the provider. */
  function Open(s: State, question: Suspended): nat {
    multiset(s.suspended)[question]
  }

  /** The provider is done with a question, but its peer is not ready any more: nobody is answered. */
  predicate Drops(s: State, t: Timed, question: Suspended) {
    && t.step.IceAnswer? && t.step.index < |s.suspended| && s.suspended[t.step.index] == question
    && question.peer < |s.net.all| && s.net.all[question.peer].phase != Ready
  }

  /** How often a run drops a question. */
  ghost function Dropped(c: Config, run: seq<Timed>, question: Suspended): nat {
    if run == [] then 0
    else
      var before := run[..|run| - 1];
      Dropped(c, before, question) + if Drops(After(c, before), run[|run| - 1], question) then 1 else 0
  }

  // ---------------------------------------------------------------------------------------------
  // One step

  lemma {:induction false} PlainSaysNothing(trace: seq<Stamped>, more: seq<Stamped>, question: Suspended)
    requires PlainGrowth(trace, more)
    ensures Asked(more, question) == Asked(trace, question) && Answered(more, question) == Answered(trace, question)
    decreases |more|
  {
    if |more| == |trace| {
      assert more == trace;
    } else {
      var shorter := more[..|more| - 1];
      assert Plain(more[|more| - 1].effect);
      PlainSaysNothing(trace, shorter, question);
    }
  }

  lemma SaidOneMore(trace: seq<Stamped>, said: Stamped, question: Suspended)
    ensures Asked(trace + [said], question) == Asked(trace, question) + if Asks(said.effect, question) then 1 else 0
    ensures Answered(trace + [said], question)
         == Answered(trace, question) + if Answers(said.effect, question) then 1 else 0
  {
    assert (trace + [said])[..|trace|] == trace;
  }

  /** A step keeps the balance: what is newly asked is newly answered, newly open or dropped. */
  ghost predicate Balances(s: State, t: Timed, after: State, question: Suspended) {
    Asked(after.trace, question) - Asked(s.trace, question)
    == Answered(after.trace, question) - Answered(s.trace, question)
       + Open(after, question) - Open(s, question) + if Drops(s, t, question) then 1 else 0
  }

  lemma TakenOut(open: seq<Suspended>, n: nat, question: Suspended)
    requires n < |open|
    ensures multiset(open[..n] + open[n + 1..])[question]
         == multiset(open)[question] - if open[n] == question then 1 else 0
  {
    assert open == open[..n] + [open[n]] + open[n + 1..];
  }

  lemma AnswerBalances(c: Config, s: State, t: Timed, question: Suspended)
    requires s.Wf() && t.step.IceAnswer?
    ensures Balances(s, t, Do(c, s, t), question)
  {
    hide Do, Asked, Answered, Tables;
    IceAnswerReachesTheReady(c, s, t);
    if t.step.index < |s.suspended| {
      TakenOut(s.suspended, t.step.index, question);
      var after := Do(c, s, t);
      if s.net.all[s.suspended[t.step.index].peer].phase == Ready {
        SaidOneMore(s.trace, after.trace[|s.trace|], question);
      }
    }
  }

  lemma QuestionBalances(c: Config, s: State, t: Timed, question: Suspended)
    requires s.Wf() && Tables(s.net) && ReadsQuestion(c, s, t)
    ensures Balances(s, t, Do(c, s, t), question)
  {
    hide Do, Asked, Answered, Tables;
    ReadyIceOutcome(c, s, t);
    var after := Do(c, s, t);
    assert after.trace == s.trace + [after.trace[|s.trace|]];
    SaidOneMore(s.trace, after.trace[|s.trace|], question);
  }

  lemma RelayBalances(c: Config, s: State, t: Timed, question: Suspended)
    requires s.Wf() && Tables(s.net) && t.step.Message? && Reads(c, s, t, t.step.peer)
    requires t.step.message.frame.value.Relay? && s.net.all[t.step.peer].phase == Ready
    ensures Balances(s, t, Do(c, s, t), question)
  {
    hide Do, Asked, Answered, Delivers, Tables;
    ReadRelayOutcome(c, s, t);
    var before, more := s.trace, Do(c, s, t).trace;
    SaidOneMore(before, more[|before|], question);
    if |more| == |before| + 2 {
      SaidOneMore(before + [more[|before|]], more[|before| + 1], question);
      assert more == before + [more[|before|]] + [more[|before| + 1]];
    } else {
      assert more == before + [more[|before|]];
    }
  }

  lemma StepBalances(c: Config, s: State, t: Timed, question: Suspended)
    requires s.Wf() && Tables(s.net)
    ensures Balances(s, t, Do(c, s, t), question)
  {
    hide Do, Asked, Answered;
    StepIsPlainOrSpecial(c, s, t);
    if t.step.IceAnswer? {
      AnswerBalances(c, s, t, question);
    } else if ReadsQuestion(c, s, t) {
      QuestionBalances(c, s, t, question);
    } else if PlainGrowth(s.trace, Do(c, s, t).trace) {
      StepAsksNothing(c, s, t);
      PlainSaysNothing(s.trace, Do(c, s, t).trace, question);
    } else {
      RelayBalances(c, s, t, question);
    }
  }

  // ---------------------------------------------------------------------------------------------
  // Every run

  /** Over every run, a question was put to the provider as often as it was answered, dropped, and still waits. */
  lemma {:induction false} QuestionsAddUp(c: Config, run: seq<Timed>, question: Suspended)
    ensures var s := After(c, run);
            Asked(s.trace, question) == Answered(s.trace, question) + Dropped(c, run, question) + Open(s, question)
  {
    hide Do;
    if run != [] {
      var before, t := run[..|run| - 1], run[|run| - 1];
      QuestionsAddUp(c, before, question);
      StepBalances(c, After(c, before), t, question);
    }
  }

  /**
   Every answer a peer got came from one answer of the provider, to a question that same peer had
   asked earlier under that id, and reached it while it was ready.
   */
  lemma {:induction false} AnswersAreAttributed(c: Config, run: seq<Timed>, i: nat) returns (n: nat, j: nat)
    requires i < |After(c, run).trace| && IsAnswer(After(c, run).trace[i].effect)
    ensures n < |run| && i == |After(c, run[..n]).trace|
    ensures AnswersBy(After(c, run[..n]), run[n], After(c, run).trace[i].effect)
    ensures j < i && Asks(After(c, run).trace[j].effect, AnswerTo(After(c, run).trace[i].effect))
  {
    hide Do, Asks, IsAnswer, AnswerTo, AnswersBy;
    var before := run[..|run| - 1];
    TraceGrows(c, run, |run| - 1);
    if i < |After(c, before).trace| {
      n, j := AnswersAreAttributed(c, before, i);
      assert before[..n] == run[..n];
    } else {
      n := |run| - 1;
      j := LastAnswers(c, before, run[n], i);
    }
  }

  lemma LastAnswers(c: Config, run: seq<Timed>, t: Timed, i: nat) returns (j: nat)
    requires var s := After(c, run);
             |s.trace| <= i < |Do(c, s, t).trace| && IsAnswer(Do(c, s, t).trace[i].effect)
    ensures var s := After(c, run);
            && i == |s.trace| && AnswersBy(s, t, Do(c, s, t).trace[i].effect)
            && j < i && Asks(s.trace[j].effect, AnswerTo(Do(c, s, t).trace[i].effect))
  {
    hide Do, After;
    OnlyAnswersAnswer(c, After(c, run), t, i);
    j := OpenWasAsked(c, run, t.step.index);
  }

  lemma OpenWasAsked(c: Config, run: seq<Timed>, k: nat) returns (j: nat)
    requires k < |After(c, run).suspended|
    ensures var s := After(c, run);
            j < |s.trace| && Asks(s.trace[j].effect, s.suspended[k])
  {
    hide Do, After, Asked, Answered, Dropped;
    var s := After(c, run);
    QuestionsAddUp(c, run, s.suspended[k]);
    assert s.suspended[k] in multiset(s.suspended);
    j := AskedSomewhere(s.trace, s.suspended[k]);
  }

  lemma {:induction false} AskedSomewhere(trace: seq<Stamped>, question: Suspended) returns (j: nat)
    requires Asked(trace, question) > 0
    ensures j < |trace| && Asks(trace[j].effect, question)
  {
    var n := |trace| - 1;
    if Asks(trace[n].effect, question) {
      j := n;
    } else {
      j := AskedSomewhere(trace[..n], question);
    }
  }
}
