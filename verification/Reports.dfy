/** What answers report is true: over every run, as written and under any repairs, with any overlap of elections. */
module Reports {
  import opened PaxosTypes
  import opened Handlers
  import opened Tallies
  import opened Cluster
  import opened Progress
  import opened Basics
  import opened Decisions
  import opened Elections
  import opened Answers

  /** `j` voted for `v` in view `w`; before any vote nothing is accepted. */
  ghost predicate VotedFor(log: seq<Event>, j: nat, q: int, w: int, v: string) {
    if w < 0 then v == "" else Voted(j, q, w, v) in log
  }

  /** Nobody holds or reports a highest accepted slot that nobody voted in. */
  ghost predicate SomebodyVoted(log: seq<Event>, h: int) {
    h == 0 || exists e :: e in log && e.Voted? && e.q == h
  }

  ghost predicate ServerTrue(log: seq<Event>, j: nat, r: Server) {
    && SomebodyVoted(log, r.highestAcceptedSeq)
    && forall q :: q in r.slots ==> VotedFor(log, j, q, r.slots[q].acceptedView, r.slots[q].vA)
  }

  ghost predicate HoldsDecided(s: State, j: nat, q: int, value: string) {
    value != "" ==> j < |s.servers| && q in s.servers[j].Decided() && s.servers[j].Decided()[q] == value
  }

  ghost predicate MessageTrue(s: State, m: Message) {
    match m
    case PrepareAns(q, _, _, j, r) => VotedFor(s.log, j, q, r.acceptedView, r.vA) && HoldsDecided(s, j, q, r.value)
    case AcceptAns(q, _, _, j, r) => HoldsDecided(s, j, q, r.value)
    case ElectAns(_, _, r) => r.ok ==> SomebodyVoted(s.log, r.highestSeq)
    case _ => true
  }

  ghost predicate Truthful(s: State) {
    && (forall j :: 0 <= j < |s.servers| ==> ServerTrue(s.log, j, s.servers[j]))
    && (forall m :: m in s.net ==> MessageTrue(s, m))
    && forall i, x, k: nat :: (i, x) in s.elections && Acknowledges(s.elections[(i, x)].answers, k) ==>
         SomebodyVoted(s.log, s.elections[(i, x)].answers[k].value.highestSeq)
  }

  /** No server voted above its highest accepted slot. */
  ghost predicate VotesBounded(s: State) {
    forall e :: e in s.log && e.Voted? ==> e.server < |s.servers| && e.q <= s.servers[e.server].highestAcceptedSeq
  }

  lemma VotesStayBounded(s: State, i: nat, q: int, e: Effect)
    requires i < |s.servers| && VotesBounded(s) && Forward(s, Commit(s, i, q, e))
    requires forall ev :: ev in e.events && ev.Voted? ==> ev.server == i && ev.q <= e.server.highestAcceptedSeq
    ensures VotesBounded(Commit(s, i, q, e))
  {
    var s' := Commit(s, i, q, e);
    assert s'.servers[i] == e.server;
    forall ev | ev in s'.log && ev.Voted?
      ensures ev.server < |s'.servers| && ev.q <= s'.servers[ev.server].highestAcceptedSeq
    {
      if ev in s.log {
        assert ServerForward(s.servers[ev.server], s'.servers[ev.server]);
      }
    }
  }

  lemma OnlyAcceptVotes(c: Cell, s: State, t: Step)
    requires |s.servers| == c.n && Enabled(c, s, t)
    ensures var e := EffectOf(c, s, t);
      forall ev :: ev in e.events && ev.Voted? ==> ev.server == t.i && ev.q <= e.server.highestAcceptedSeq
  {
  }

  lemma {:induction false} RunBounded(c: Cell, states: seq<State>, steps: seq<Step>, k: nat)
    requires Run(c, states, steps) && k < |states|
    ensures VotesBounded(states[k])
  {
    hide Enabled, Init, Basic, EffectOf;
    if k == 0 {
      assert Init(c).log == [] by {
        NoHistory(c);
      }
    } else {
      RunBounded(c, states, steps, k - 1);
      RunBasic(c, states, steps, k - 1);
      StepBasic(c, states[k - 1], steps[k - 1]);
      InRange(c, states[k - 1], steps[k - 1]);
      OnlyAcceptVotes(c, states[k - 1], steps[k - 1]);
      VotesStayBounded(states[k - 1], steps[k - 1].i, SlotOf(steps[k - 1]), EffectOf(c, states[k - 1], steps[k - 1]));
    }
  }

  lemma NoHistory(c: Cell)
    ensures Init(c).log == []
  {
  }

  // ---- Stability ----

  lemma MessageStaysTrue(s: State, s': State, m: Message)
    requires Forward(s, s') && MessageTrue(s, m)
    ensures MessageTrue(s', m)
  {
    forall j: nat, q, value | HoldsDecided(s, j, q, value)
      ensures HoldsDecided(s', j, q, value)
    {
      if value != "" {
        assert ServerForward(s.servers[j], s'.servers[j]);
      }
    }
  }

  /** Every accepted slot is as before, a new one is blank, or it holds a vote of this step. */
  ghost predicate VotesKept(r: Server, r': Server, i: nat, events: seq<Event>) {
    && (r'.highestAcceptedSeq == r.highestAcceptedSeq || exists e :: e in events && e.Voted? && e.q == r'.highestAcceptedSeq)
    && forall q :: q in r'.slots ==>
         || (q in r.slots && r'.slots[q].vA == r.slots[q].vA && r'.slots[q].acceptedView == r.slots[q].acceptedView)
         || (r'.slots[q].vA == "" && r'.slots[q].acceptedView == -1)
         || (r'.slots[q].acceptedView >= 0 && Voted(i, q, r'.slots[q].acceptedView, r'.slots[q].vA) in events)
  }

  /** Only slot `q` changes, and not in what was accepted, unless by a vote of this step. */
  lemma OneSlotVotes(r: Server, r': Server, i: nat, q: int, events: seq<Event>)
    requires q in r'.slots && r'.slots == r.slots[q := r'.slots[q]]
    requires var slot, was := r'.slots[q], Touched(r, q);
      || (slot.vA == was.vA && slot.acceptedView == was.acceptedView)
      || (slot.acceptedView >= 0 && Voted(i, q, slot.acceptedView, slot.vA) in events)
    requires r'.highestAcceptedSeq == r.highestAcceptedSeq || exists e :: e in events && e.Voted? && e.q == r'.highestAcceptedSeq
    ensures VotesKept(r, r', i, events)
  {
  }

  lemma StartersKeepVotes(r: Server, i: nat, q: int, v: string)
    ensures VotesKept(r, StartEffect(r, i, q, v).server, i, []) && VotesKept(r, CallStartEffect(r, i, q, v).server, i, [])
    ensures VotesKept(r, PassOnEffect(r, i, q, v).server, i, [])
  {
    OneSlotVotes(r, AddSlots(r, q), i, q, []);
    assert VotesKept(r, r, i, []);
    hide VotesKept, AddSlots;
  }

  lemma BeginnersKeepVotes(c: Cell, r: Server, i: nat, q: int, v: string, view: nat)
    requires q in r.slots
    ensures VotesKept(r, BeginEffect(c, r, q, v, view).server, i, [])
  {
  }

  lemma ProposersKeepVotes(c: Cell, r: Server, i: nat, q: int, p: Proposer)
    ensures q in r.slots && p.phase.Preparing? ==> VotesKept(r, FinishPrepareEffect(c, r, q, p).server, i, [])
    ensures p.phase.Accepting? ==> VotesKept(r, FinishAcceptEffect(c, r, q, p).server, i, [])
  {
  }

  lemma PromisersKeepVotes(c: Cell, r: Server, i: nat, q: int, prop: int, view: nat)
    ensures VotesKept(r, DeliverPrepareEffect(c, r, i, q, prop, view).server, i, [])
  {
  }

  lemma VotersKeepVotes(r: Server, i: nat, q: int, view: nat, v: string)
    ensures var e := DeliverAcceptEffect(r, i, q, view, v); VotesKept(r, e.server, i, e.events)
  {
    var e := DeliverAcceptEffect(r, i, q, view, v);
    if q < r.lowestSlot {
    } else {
      assert e.events != [] ==> e.events[0] == Voted(i, q, view, v) && e.events[0] in e.events;
      OneSlotVotes(r, e.server, i, q, e.events);
      hide VotesKept;
    }
  }

  lemma LearnersKeepVotes(r: Server, i: nat, q: int, v: string, events: seq<Event>)
    ensures VotesKept(r, DeliverLearnEffect(r, i, q, v).server, i, events)
  {
    if q < r.lowestSlot {
    } else {
      OneSlotVotes(r, DeliverLearnEffect(r, i, q, v).server, i, q, events);
      hide VotesKept;
    }
  }

  lemma CopiersKeepVotes(r: Server, i: nat, decided: map<int, string>)
    ensures VotesKept(r, DecideAll(r, decided), i, [])
  {
  }

  lemma FollowersKeepVotes(c: Cell, r: Server, i: nat, view: nat, done: seq<int>, decided: map<int, string>)
    ensures VotesKept(r, DeliverHeartbeatEffect(c, r, view, done, decided).server, i, [])
  {
    var r1 := Adopt(r, view).(done := done, missedHeartbeats := 0);
    CopiersKeepVotes(r1, i, decided);
    hide DecideAll;
  }

  /** Everything but winning an election keeps the votes. */
  lemma StepKeepsVotes(c: Cell, s: State, t: Step)
    requires |s.servers| == c.n && Enabled(c, s, t) && !t.FinishElection?
    ensures VotesKept(s.servers[t.i], EffectOf(c, s, t).server, t.i, EffectOf(c, s, t).events)
  {
    var r := s.servers[t.i];
    match t {
      case CallStart(i, q, v) => StartersKeepVotes(r, i, q, v);
      case PassOn(i, q, v) => StartersKeepVotes(r, i, q, v);
      case ArriveForward(i, q, v) => StartersKeepVotes(r, i, q, v);
      case Begin(i, q, v, view) => BeginnersKeepVotes(c, r, i, q, v, view);
      case DeliverPrepare(i, q, prop, view) => PromisersKeepVotes(c, r, i, q, prop, view);
      case DeliverAccept(i, q, view, v) => VotersKeepVotes(r, i, q, view, v);
      case FinishPrepare(i, q) => ProposersKeepVotes(c, r, i, q, s.proposers[(i, q)]);
      case FinishAccept(i, q) => ProposersKeepVotes(c, r, i, q, s.proposers[(i, q)]);
      case DeliverLearn(i, q, v) => LearnersKeepVotes(r, i, q, v, EffectOf(c, s, t).events);
      case DeliverHeartbeat(i, view, done, decided) => FollowersKeepVotes(c, r, i, view, done, decided);
      case AnswerHeartbeat(i, decided) => CopiersKeepVotes(r, i, decided);
      case _ => IdleKeepsVotes(c, s, t);
    }
  }

  lemma IdleKeepsVotes(c: Cell, s: State, t: Step)
    requires |s.servers| == c.n && Enabled(c, s, t) && ((IsIdle(t) && !t.FinishElection?) || t.SendHeartbeat?)
    ensures VotesKept(s.servers[t.i], EffectOf(c, s, t).server, t.i, EffectOf(c, s, t).events)
  {
    if !t.SendHeartbeat? {
      IdleTouchesNoSlot(c, s, t);
    }
  }

  // ---- One step ----

  lemma VotesStayTrue(log: seq<Event>, log': seq<Event>, i: nat, r: Server, r': Server, events: seq<Event>)
    requires log' == log + events && ServerTrue(log, i, r) && VotesKept(r, r', i, events)
    ensures ServerTrue(log', i, r')
  {
    forall q | q in r'.slots
      ensures VotedFor(log', i, q, r'.slots[q].acceptedView, r'.slots[q].vA)
    {
      assert q in r.slots ==> VotedFor(log, i, q, r.slots[q].acceptedView, r.slots[q].vA);
    }
  }

  lemma CommitTruthful(s: State, i: nat, q: int, e: Effect)
    requires i < |s.servers| && Truthful(s) && Forward(s, Commit(s, i, q, e))
    requires ServerTrue(s.log + e.events, i, e.server)
    requires forall m :: m in e.sent ==> MessageTrue(Commit(s, i, q, e), m)
    requires e.election.Set? ==> forall k: nat :: Acknowledges(e.election.value.answers, k) ==>
               SomebodyVoted(s.log, e.election.value.answers[k].value.highestSeq)
    ensures Truthful(Commit(s, i, q, e))
  {
    var s' := Commit(s, i, q, e);
    forall j | 0 <= j < |s'.servers|
      ensures ServerTrue(s'.log, j, s'.servers[j])
    {
      if j == i {
        assert s'.servers[j] == e.server;
      } else {
        assert s'.servers[j] == s.servers[j];
        VotesStayTrue(s.log, s'.log, j, s.servers[j], s.servers[j], e.events);
      }
    }
    forall m | m in s'.net
      ensures MessageTrue(s', m)
    {
      if m in s.net {
        MessageStaysTrue(s, s', m);
      }
    }
    ElectionsStayTrue(s, s', i, e);
  }

  lemma ElectionsStayTrue(s: State, s': State, i: nat, e: Effect)
    requires s'.log == s.log + e.events && s'.elections == Update(s.elections, (i, e.x), e.election)
    requires forall j, x, k: nat :: (j, x) in s.elections && Acknowledges(s.elections[(j, x)].answers, k) ==>
               SomebodyVoted(s.log, s.elections[(j, x)].answers[k].value.highestSeq)
    requires e.election.Set? ==> forall k: nat :: Acknowledges(e.election.value.answers, k) ==>
               SomebodyVoted(s.log, e.election.value.answers[k].value.highestSeq)
    ensures forall j, x, k: nat :: (j, x) in s'.elections && Acknowledges(s'.elections[(j, x)].answers, k) ==>
              SomebodyVoted(s'.log, s'.elections[(j, x)].answers[k].value.highestSeq)
  {
    forall j, x, k: nat | (j, x) in s'.elections && Acknowledges(s'.elections[(j, x)].answers, k)
      ensures SomebodyVoted(s'.log, s'.elections[(j, x)].answers[k].value.highestSeq)
    {
      if (j, x) == (i, e.x) && e.election.Set? {
        assert SomebodyVoted(s.log, e.election.value.answers[k].value.highestSeq);
      } else {
        assert SomebodyVoted(s.log, s.elections[(j, x)].answers[k].value.highestSeq);
      }
    }
  }

  lemma PromiseIsTrue(c: Cell, s: State, i: nat, q: int, prop: int, view: nat)
    requires |s.servers| == c.n && i < c.n && ServerTrue(s.log, i, s.servers[i])
    ensures var e := DeliverPrepareEffect(c, s.servers[i], i, q, prop, view);
      forall m :: m in e.sent ==> MessageTrue(Commit(s, i, 0, e), m)
  {
    var r := s.servers[i];
    var e := DeliverPrepareEffect(c, r, i, q, prop, view);
    var s' := Commit(s, i, 0, e);
    assert s'.servers[i] == e.server;
    if !Refused(r, q) {
      PrepareFields(c.fix, r, q, prop, view);
      var a := Prepare(c.fix, r, q, prop, view).1.value;
      assert VotedFor(s.log, i, q, AcceptedIn(r, q), AcceptedValue(r, q));
      assert q in r.Decided() ==> q in e.server.Decided() && e.server.Decided()[q] == r.Decided()[q];
      hide Prepare;
    }
  }

  lemma VoteIsTrue(c: Cell, s: State, i: nat, q: int, view: nat, v: string)
    requires |s.servers| == c.n && i < c.n
    ensures var e := DeliverAcceptEffect(s.servers[i], i, q, view, v);
      forall m :: m in e.sent ==> MessageTrue(Commit(s, i, 0, e), m)
  {
    var r := s.servers[i];
    var e := DeliverAcceptEffect(r, i, q, view, v);
    assert Commit(s, i, 0, e).servers[i] == e.server;
    if !Refused(r, q) {
      AcceptFields(r, q, view, v);
      hide Accept;
    }
  }

  lemma AcknowledgementIsTrue(c: Cell, s: State, i: nat, view: nat)
    requires |s.servers| == c.n && i < c.n && ServerTrue(s.log, i, s.servers[i])
    ensures var e := DeliverElectEffect(s.servers[i], i, view);
      forall m :: m in e.sent ==> MessageTrue(Commit(s, i, 0, e), m)
  {
  }

  lemma WinnerIsTrue(c: Cell, s: State, i: nat, x: nat, el: Election)
    requires |s.servers| == c.n && i < c.n && ServerTrue(s.log, i, s.servers[i])
    requires s.servers[i].highestAcceptedSeq >= 0
    requires forall k: nat :: Acknowledges(el.answers, k) ==> SomebodyVoted(s.log, el.answers[k].value.highestSeq)
    ensures var e := FinishElectionEffect(s.servers[i], i, x, el);
      ServerTrue(s.log + e.events, i, e.server) && e.sent == {} && (e.election.Set? ==> e.election.value.answers == [])
  {
    var e := FinishElectionEffect(s.servers[i], i, x, el);
    MaxReported(el.answers);
    hide TallyElect;
    ElectionTouchesNoSlot(s.servers[i], i, x, el);
    VotesStayTrue(s.log, s.log + e.events, i, s.servers[i], s.servers[i], e.events);
    if e.server.highestAcceptedSeq != s.servers[i].highestAcceptedSeq {
      assert SomebodyVoted(s.log, e.server.highestAcceptedSeq);
    }
  }

  lemma OthersSendNoAnswers(c: Cell, s: State, t: Step)
    requires Enabled(c, s, t) && !t.DeliverPrepare? && !t.DeliverAccept? && !t.DeliverElect?
    ensures forall m :: m in EffectOf(c, s, t).sent ==> !m.PrepareAns? && !m.AcceptAns? && !m.ElectAns?
  {
  }

  lemma SentIsTrue(c: Cell, s: State, t: Step)
    requires |s.servers| == c.n && Enabled(c, s, t) && !t.FinishElection? && ServerTrue(s.log, t.i, s.servers[t.i])
    ensures var e := EffectOf(c, s, t); forall m :: m in e.sent ==> MessageTrue(Commit(s, t.i, SlotOf(t), e), m)
  {
    hide DeliverPrepareEffect, DeliverAcceptEffect, DeliverElectEffect;
    if t.DeliverPrepare? {
      PromiseIsTrue(c, s, t.i, t.q, t.prop, t.view);
    } else if t.DeliverAccept? {
      VoteIsTrue(c, s, t.i, t.q, t.view, t.v);
    } else if t.DeliverElect? {
      AcknowledgementIsTrue(c, s, t.i, t.view);
    } else {
      OthersSendNoAnswers(c, s, t);
      hide EffectOf;
    }
  }

  lemma StepTruthful(c: Cell, s: State, t: Step)
    requires Basic(c, s) && Truthful(s) && Enabled(c, s, t) && s.servers[t.i].highestAcceptedSeq >= 0
    ensures Truthful(Apply(c, s, t))
  {
    var e := EffectOf(c, s, t);
    StepBasic(c, s, t);
    assert ServerTrue(s.log, t.i, s.servers[t.i]);
    if t.FinishElection? {
      WinnerIsTrue(c, s, t.i, t.x, s.elections[(t.i, t.x)]);
    } else {
      StepKeepsVotes(c, s, t);
      VotesStayTrue(s.log, s.log + e.events, t.i, s.servers[t.i], e.server, e.events);
      SentIsTrue(c, s, t);
      NewAnswersTrue(c, s, t);
    }
    hide EffectOf, Basic, Truthful, MessageTrue, ServerTrue, SomebodyVoted, Forward, VotesKept;
    CommitTruthful(s, t.i, SlotOf(t), e);
  }

  lemma NewAnswersTrue(c: Cell, s: State, t: Step)
    requires Truthful(s) && Enabled(c, s, t) && !t.FinishElection?
    ensures var e := EffectOf(c, s, t);
      e.election.Set? ==> forall k: nat :: Acknowledges(e.election.value.answers, k) ==>
        SomebodyVoted(s.log, e.election.value.answers[k].value.highestSeq)
  {
    if t.AnswerElect? {
      var el := s.elections[(t.i, t.x)];
      var a := el.answers + [t.electAnswer];
      forall k: nat | Acknowledges(a, k)
        ensures SomebodyVoted(s.log, a[k].value.highestSeq)
      {
        if k < |el.answers| {
          assert Acknowledges(el.answers, k);
        } else {
          assert MessageTrue(s, ElectAns(el.target, |el.answers|, t.electAnswer.value));
        }
      }
    }
  }

  // ---- All runs ----

  lemma {:induction false} RunTruthful(c: Cell, states: seq<State>, steps: seq<Step>, k: nat)
    requires Run(c, states, steps) && k < |states|
    ensures Truthful(states[k])
  {
    hide Enabled, Apply, Truthful, Init, Basic;
    if k == 0 {
      InitTruthful(c);
    } else {
      RunTruthful(c, states, steps, k - 1);
      RunBasic(c, states, steps, k - 1);
      var i := steps[k - 1].i;
      InRange(c, states[k - 1], steps[k - 1]);
      HighestNotNegative(c, states, steps, k - 1, i);
      StepTruthful(c, states[k - 1], steps[k - 1]);
    }
  }

  lemma InRange(c: Cell, s: State, t: Step)
    requires Enabled(c, s, t)
    ensures t.i < |s.servers| == c.n
  {
  }

  lemma InitTruthful(c: Cell)
    ensures Truthful(Init(c))
  {
  }

  /** What a promise says was accepted was accepted by that server in that view, and what it or a vote says is decided is
      decided there with that value, then and ever after. */
  lemma AnswersAreTrue(c: Cell, states: seq<State>, steps: seq<Step>, k: nat, m: Message)
    requires Run(c, states, steps) && k < |states| && m in states[k].net
    ensures m.PrepareAns? && m.prepareReply.acceptedView >= 0 ==>
              Voted(m.from, m.q, m.prepareReply.acceptedView, m.prepareReply.vA) in states[k].log
    ensures m.PrepareAns? && m.prepareReply.acceptedView < 0 ==> m.prepareReply.vA == ""
    ensures m.PrepareAns? ==> HoldsDecided(states[k], m.from, m.q, m.prepareReply.value)
    ensures m.AcceptAns? ==> HoldsDecided(states[k], m.from, m.q, m.acceptReply.value)
  {
    hide Run;
    RunTruthful(c, states, steps, k);
    assert MessageTrue(states[k], m);
  }

  /** A server's highest accepted slot is at least every slot it voted in, and some server voted in it. */
  lemma HighestIsReal(c: Cell, states: seq<State>, steps: seq<Step>, k: nat, i: nat)
    requires Run(c, states, steps) && k < |states| && i < c.n
    ensures |states[k].servers| == c.n && SomebodyVoted(states[k].log, states[k].servers[i].highestAcceptedSeq)
    ensures forall q, w, v :: Voted(i, q, w, v) in states[k].log ==> q <= states[k].servers[i].highestAcceptedSeq
  {
    RunBasic(c, states, steps, k);
    RunBounded(c, states, steps, k);
    hide Run;
    RunTruthful(c, states, steps, k);
    assert ServerTrue(states[k].log, i, states[k].servers[i]);
  }
}
