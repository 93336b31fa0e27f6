/** Building blocks of concrete runs of a cell of three. They all use slot 1 and, one after the other, the leaders 0
    (view 0) and 1 (view 1 or 4). */
module Scenarios {
  import opened PaxosTypes
  import opened Handlers
  import opened Tallies
  import opened Cluster

  ghost predicate Reaches(c: Cell, s: State) {
    exists states, steps :: Run(c, states, steps) && states[|states| - 1] == s
  }

  lemma Start0(c: Cell)
    ensures Reaches(c, Init(c))
  {
    assert Run(c, [Init(c)], []);
  }

  lemma Then(c: Cell, s: State, t: Step) returns (s': State)
    requires Reaches(c, s) && Enabled(c, s, t)
    ensures Reaches(c, s') && s' == Apply(c, s, t)
  {
    s' := Apply(c, s, t);
    var states, steps :| Run(c, states, steps) && states[|states| - 1] == s;
    OneMoreStep(c, states, steps, t, s');
  }

  lemma OneMoreStep(c: Cell, states: seq<State>, steps: seq<Step>, t: Step, s': State)
    requires Run(c, states, steps) && Enabled(c, states[|states| - 1], t) && s' == Apply(c, states[|states| - 1], t)
    ensures Run(c, states + [s'], steps + [t])
    ensures Reaches(c, s')
  {
    hide Enabled, Apply, Init;
    var states', steps' := states + [s'], steps + [t];
    forall k | 0 <= k < |steps'|
      ensures Enabled(c, states'[k], steps'[k]) && states'[k + 1] == Apply(c, states'[k], steps'[k])
    {
      if k < |steps| {
        assert steps'[k] == steps[k];
      }
    }
    assert states'[|states'| - 1] == s';
  }

  // ---- Building blocks of a run ----

  /** A leader of view `w` that may propose for slot 1. */
  ghost predicate MayPropose(c: Cell, s: State, i: nat, w: nat) {
    && c.n == 3 && |s.servers| == 3 && i < 2 && (i, 1) !in s.proposers && (c.oneElection ==> (i, 0) !in s.elections)
    && var r := s.servers[i];
    && r.me == i && r.numServers == 3 && r.view == w && w % 3 == i && r.lowestSlot == 0 && !r.leaderDead
    && (1 in r.slots ==> r.slots[1].status != DECIDED)
  }

  lemma LaunchIt(c: Cell, s: State, i: nat, w: nat, x: string) returns (s': State)
    requires Reaches(c, s) && MayPropose(c, s, i, w) && x != ""
    ensures Reaches(c, s') && MayPropose(c, s', i, w) && Launch(i, 1, x, w) in s'.net
    ensures s'.servers == s.servers[i := AddSlots(s.servers[i], 1)]
    ensures s'.proposers == s.proposers && s'.elections == s.elections && s.net <= s'.net
  {
    hide Reaches;
    s' := Then(c, s, CallStart(i, 1, x));
  }

  /** Straight to the Accept phase. */
  lemma ProposeIt(c: Cell, s: State, i: nat, w: nat, x: string) returns (s': State)
    requires Reaches(c, s) && MayPropose(c, s, i, w) && x != "" && s.servers[i].highestAcceptedSeq == 0
    ensures var r := s.servers[i];
      var y := ProposalFor(c.fix, r, 1, w, x);
      && Reaches(c, s') && AcceptReq(1, w, y) in s'.net && s.net <= s'.net && s'.elections == s.elections
      && s'.servers == s.servers[i := AddSlots(r, 1).(proposed := r.proposed[(w, 1) := y])]
      && s'.proposers == s.proposers[(i, 1) := Proposer(x, w, Accepting(y, []))]
  {
    hide Reaches;
    var s1 := LaunchIt(c, s, i, w, x);
    s' := Then(c, s1, Begin(i, 1, x, w));
  }

  lemma AcceptIt(c: Cell, s: State, j: nat, w: nat, y: string) returns (s': State, a: AcceptReply)
    requires Reaches(c, s) && c.n == 3 == |s.servers| && j < 3 && AcceptReq(1, w, y) in s.net
    requires s.servers[j].lowestSlot == 0 && s.servers[j].view <= w && s.servers[j].LatestDone() == -1
    requires 1 in s.servers[j].slots ==> s.servers[j].slots[1].status != DECIDED
    ensures Reaches(c, s') && AcceptAns(1, w, y, j, a) in s'.net && a.ok && a.value == "" && a.latestDone == -1
    ensures s'.servers == s.servers[j := Accept(s.servers[j], 1, w, y).0]
    ensures s'.proposers == s.proposers && s'.elections == s.elections && s.net <= s'.net
  {
    hide Reaches;
    a := Accept(s.servers[j], 1, w, y).1.value;
    s' := Then(c, s, DeliverAccept(j, 1, w, y));
  }

  predicate Usable(a: Option<AcceptReply>) {
    a.Some? ==> a.value.ok && a.value.value == "" && a.value.latestDone == -1
  }

  lemma TakeAnswers(c: Cell, s: State, i: nat, a: seq<Option<AcceptReply>>, k: nat) returns (s': State)
    requires Reaches(c, s) && c.n == 3 == |s.servers| && i < 3 && |a| == 3 && k <= 3
    requires (i, 1) in s.proposers && s.proposers[(i, 1)].phase.Accepting?
    requires s.proposers[(i, 1)].phase.accepts == []
    requires var p := s.proposers[(i, 1)];
      forall j :: 0 <= j < 3 && a[j].Some? ==> AcceptAns(1, p.view, p.phase.accepted, j, a[j].value) in s.net
    ensures var p := s.proposers[(i, 1)];
      s' == s.(proposers := s.proposers[(i, 1) := p.(phase := Accepting(p.phase.accepted, a[..k]))])
    ensures Reaches(c, s')
  {
    hide Reaches;
    if k == 0 {
      s' := s;
      assert s'.proposers == s.proposers[(i, 1) := s.proposers[(i, 1)]];
    } else {
      var s1 := TakeAnswers(c, s, i, a, k - 1);
      s' := Then(c, s1, AnswerAccept(i, 1, a[k - 1]));
      assert a[..k] == a[..k - 1] + [a[k - 1]];
      assert s'.servers == s.servers;
    }
  }

  lemma TallyOfThree(a: seq<Option<AcceptReply>>)
    requires |a| == 3 && Usable(a[0]) && Usable(a[1]) && Usable(a[2])
    ensures var t := TallyAccept(1, a);
      && !t.decided
      && t.majority == (if a[0].Some? then 1 else 0) + (if a[1].Some? then 1 else 0) + (if a[2].Some? then 1 else 0)
  {
    assert a[..2][..1] == a[..1] && a[..1][..0] == [] && a[..2][1] == a[1] && a[..1][0] == a[0];
    assert TallyAccept(1, a[..1]) == CountAccept(1, TallyAccept(1, []), a[0]);
    assert TallyAccept(1, a[..2]) == CountAccept(1, TallyAccept(1, a[..1]), a[1]);
  }

  /** The Accept phase of `i` ends in Learn, with a majority or for want of the test for one. */
  lemma ConcludeIt(c: Cell, s: State, i: nat, a: seq<Option<AcceptReply>>) returns (s': State)
    requires Reaches(c, s) && c.n == 3 == |s.servers| && i < 3 && |a| == 3
    requires (i, 1) in s.proposers && s.proposers[(i, 1)].phase.Accepting?
    requires s.proposers[(i, 1)].phase.accepts == []
    requires var p := s.proposers[(i, 1)];
      forall j :: 0 <= j < 3 && a[j].Some? ==> AcceptAns(1, p.view, p.phase.accepted, j, a[j].value) in s.net
    requires Usable(a[0]) && Usable(a[1]) && Usable(a[2])
    requires !c.fix.needMajority || exists k: nat, m: nat :: k < m < 3 && a[k].Some? && a[m].Some?
    ensures Reaches(c, s') && s'.servers == s.servers && s'.elections == s.elections && s.net <= s'.net
    ensures var p := s.proposers[(i, 1)];
      && LearnReq(1, p.phase.accepted) in s'.net
      && s'.proposers == s.proposers[(i, 1) := p.(phase := Learning(p.phase.accepted))]
  {
    hide Reaches;
    var s1 := TakeAnswers(c, s, i, a, 3);
    assert a[..3] == a;
    TallyOfThree(a);
    s' := Then(c, s1, FinishAccept(i, 1));
  }

  lemma LearnIt(c: Cell, s: State, j: nat, x: string) returns (s': State)
    requires Reaches(c, s) && c.n == 3 == |s.servers| && j < 3 && LearnReq(1, x) in s.net
    requires s.servers[j].lowestSlot == 0 && (1 in s.servers[j].slots ==> s.servers[j].slots[1].status != DECIDED)
    ensures Reaches(c, s') && s'.servers == s.servers[j := Learn(s.servers[j], 1, x)]
    ensures 1 in s'.servers[j].Decided() && s'.servers[j].Decided()[1] == x
    ensures s'.proposers == s.proposers && s'.elections == s.elections && s.net <= s'.net
  {
    hide Reaches;
    s' := Then(c, s, DeliverLearn(j, 1, x));
  }

  lemma EndIt(c: Cell, s: State, i: nat) returns (s': State)
    requires Reaches(c, s) && c.n == 3 == |s.servers| && i < 3
    requires (i, 1) in s.proposers && s.proposers[(i, 1)].phase.Learning?
    ensures Reaches(c, s') && s' == s.(proposers := s.proposers - {(i, 1)})
  {
    hide Reaches;
    s' := Then(c, s, FinishLearn(i, 1));
    assert s'.servers == s.servers;
  }

  /** Server `i` misses four heartbeats and stands for the view after `view` that it owns. */
  lemma Suspect(c: Cell, s: State, i: nat, x: nat, view: nat, target: nat) returns (s': State)
    requires Reaches(c, s) && c.n == 3 == |s.servers| && i < 3 && (i, x) !in s.elections
    requires c.oneElection ==> x == 0 && forall q :: (i, q) !in s.proposers
    requires s.servers[i].me == i && s.servers[i].numServers == 3
    requires s.servers[i].view == view && view % 3 != i && s.servers[i].missedHeartbeats == 0
    requires view < target < view + 3 && target % 3 == i
    ensures Reaches(c, s') && s'.proposers == s.proposers && s.net <= s'.net && ElectReq(target) in s'.net
    ensures s'.elections == s.elections[(i, x) := Election(target, [])]
    ensures s'.servers == s.servers[i := s.servers[i].(missedHeartbeats := 0, leaderDead := true, electionHappened := true)]
  {
    hide Reaches;
    var s1 := MissOne(c, s, i, x);
    var s2 := MissOne(c, s1, i, x);
    var s3 := MissOne(c, s2, i, x);
    s' := Then(c, s3, Detect(i, x));
  }

  lemma MissOne(c: Cell, s: State, i: nat, x: nat) returns (s': State)
    requires Reaches(c, s) && c.n == 3 == |s.servers| && i < 3 && s.servers[i].missedHeartbeats < 3
    requires s.servers[i].me == i && s.servers[i].numServers == 3
    ensures Reaches(c, s') && s'.proposers == s.proposers && s'.elections == s.elections && s'.net == s.net
    ensures s'.servers == s.servers[i := s.servers[i].(missedHeartbeats := s.servers[i].missedHeartbeats + 1)]
  {
    hide Reaches;
    s' := Then(c, s, Detect(i, x));
  }

  /** Server 1 stands for view 1, and wins it with the answer of server 2. */
  lemma ElectIt(c: Cell, s: State) returns (s': State)
    requires Reaches(c, s) && c.n == 3 == |s.servers| && (1, 0) !in s.elections && s.servers[2].highestAcceptedSeq >= 0
    requires forall q :: (1, q) !in s.proposers
    requires s.servers[1].me == 1 && s.servers[1].numServers == 3
    requires s.servers[1].view == 0 == s.servers[2].view && s.servers[1].missedHeartbeats == 0
    ensures Reaches(c, s') && s'.proposers == s.proposers && s'.elections == s.elections && s.net <= s'.net
    ensures var h := Max(s.servers[1].highestAcceptedSeq, s.servers[2].highestAcceptedSeq);
      && |s'.servers| == 3 && s'.servers[0] == s.servers[0]
      && s'.servers[1] == s.servers[1].(view := 1, leaderDead := false, missedHeartbeats := 0, electionHappened := true,
                                        highestAcceptedSeq := h)
      && s'.servers[2] == s.servers[2].(view := 1, leaderDead := false, missedHeartbeats := 0)
  {
    hide Reaches, Enabled, Apply;
    var s1 := Suspect(c, s, 1, 0, 0, 1);
    var s2, a := AcknowledgeIt(c, s1);
    s' := Victory(c, s2, a);
    assert s'.elections == s.elections;
  }

  lemma AcknowledgeIt(c: Cell, s: State) returns (s': State, a: ElectReply)
    requires Reaches(c, s) && c.n == 3 == |s.servers| && s.servers[2].view == 0 && ElectReq(1) in s.net
    requires (1, 0) in s.elections && s.elections[(1, 0)] == Election(1, [])
    ensures Reaches(c, s') && s'.proposers == s.proposers && s.net <= s'.net
    ensures a == ElectReply(true, 1, s.servers[2].highestAcceptedSeq)
    ensures s'.elections == s.elections[(1, 0) := Election(1, [None, None, Some(a)])]
    ensures s'.servers == s.servers[2 := s.servers[2].(view := 1, leaderDead := false, missedHeartbeats := 0)]
  {
    hide Reaches;
    a := ElectReply(true, 1, s.servers[2].highestAcceptedSeq);
    var s1 := Then(c, s, DeliverElect(2, 1));
    assert ElectAns(1, 2, a) in s1.net;
    var s2 := Then(c, s1, AnswerElect(1, 0, None));
    var s3 := Then(c, s2, AnswerElect(1, 0, None));
    assert s3.elections[(1, 0)].answers == [None, None];
    s' := Then(c, s3, AnswerElect(1, 0, Some(a)));
    assert s'.elections[(1, 0)].answers == [None, None, Some(a)];
  }

  lemma Victory(c: Cell, s: State, a: ElectReply) returns (s': State)
    requires Reaches(c, s) && c.n == 3 == |s.servers| && a.ok && a.highestSeq >= 0
    requires (1, 0) in s.elections && s.elections[(1, 0)] == Election(1, [None, None, Some(a)])
    requires s.servers[1].numServers == 3 && s.servers[1].view == 0
    ensures Reaches(c, s') && s'.proposers == s.proposers && s'.elections == s.elections - {(1, 0)} && s.net <= s'.net
    ensures s'.servers == s.servers[1 := s.servers[1].(view := 1, leaderDead := false, missedHeartbeats := 0,
                            highestAcceptedSeq := Max(s.servers[1].highestAcceptedSeq, a.highestSeq))]
  {
    hide Reaches;
    var one: seq<Option<ElectReply>>, two: seq<Option<ElectReply>>, answers := [None], [None, None], [None, None, Some(a)];
    assert answers[..2] == two && two[..1] == one && one[..0] == [];
    assert TallyElect(one) == TallyElect([]) && TallyElect(two) == TallyElect(one);
    assert TallyElect(answers) == ElectTally(1, 0, -1, a.highestSeq);
    s' := Then(c, s, FinishElection(1, 0));
  }

  /** Through the Prepare phase of server 1, which has not touched slot 1 yet. */
  lemma PrepareIt(c: Cell, s: State, x: string) returns (s': State)
    requires Reaches(c, s) && MayPropose(c, s, 1, 1) && x != "" && s.servers[1].highestAcceptedSeq >= 1
    requires 1 !in s.servers[1].slots
    ensures Reaches(c, s') && PrepareReq(1, 4, 1) in s'.net && s.net <= s'.net && s'.elections == s.elections
    ensures s'.servers == s.servers[1 := s.servers[1].(slots := s.servers[1].slots[1 := InitSlot(1).(n := 4)])]
    ensures s'.proposers == s.proposers[(1, 1) := Proposer(x, 1, Preparing(4, []))]
  {
    hide Reaches;
    var s1 := LaunchIt(c, s, 1, 1, x);
    assert AdvanceN(1, 1, 3) == 4;
    s' := Then(c, s1, Begin(1, 1, x, 1));
    var slots := s.servers[1].slots;
    assert slots[1 := InitSlot(1)][1 := InitSlot(1).(n := 4)] == slots[1 := InitSlot(1).(n := 4)];
  }

  lemma PromiseIt(c: Cell, s: State, j: nat) returns (s': State, a: PrepareReply)
    requires Reaches(c, s) && c.n == 3 == |s.servers| && j < 3 && PrepareReq(1, 4, 1) in s.net
    requires s.servers[j].lowestSlot == 0
    ensures var r := Prepare(c.fix, s.servers[j], 1, 4, 1);
      && Reaches(c, s') && r.1 == Some(a) && PrepareAns(1, 4, 1, j, a) in s'.net
      && s'.servers == s.servers[j := r.0]
    ensures s'.proposers == s.proposers && s'.elections == s.elections && s.net <= s'.net
  {
    hide Reaches;
    a := Prepare(c.fix, s.servers[j], 1, 4, 1).1.value;
    s' := Then(c, s, DeliverPrepare(j, 1, 4, 1));
  }

  lemma TakePromises(c: Cell, s: State, a: seq<Option<PrepareReply>>, k: nat) returns (s': State)
    requires Reaches(c, s) && c.n == 3 == |s.servers| && k <= |a| <= 3 && 1 in s.servers[1].slots
    requires (1, 1) in s.proposers && s.proposers[(1, 1)].phase == Preparing(4, []) && s.proposers[(1, 1)].view == 1
    requires forall j :: 0 <= j < |a| && a[j].Some? ==> PrepareAns(1, 4, 1, j, a[j].value) in s.net
    requires forall m :: 0 <= m < k ==>
               !TallyPrepare(c.fix, 3, s.proposers[(1, 1)].v, s.servers[1].slots[1].highestN, a[..m]).stop
    ensures Reaches(c, s')
    ensures s' == s.(proposers := s.proposers[(1, 1) := s.proposers[(1, 1)].(phase := Preparing(4, a[..k]))])
  {
    hide Reaches;
    if k == 0 {
      s' := s;
      assert s'.proposers == s.proposers[(1, 1) := s.proposers[(1, 1)]];
    } else {
      var s1 := TakePromises(c, s, a, k - 1);
      s' := Then(c, s1, AnswerPrepare(1, 1, a[k - 1]));
      assert a[..k] == a[..k - 1] + [a[k - 1]];
      assert s'.servers == s.servers;
    }
  }

  /** Two promises, and no value found in them: the leader goes on with its own. */
  lemma ChooseIt(c: Cell, s: State, a: seq<Option<PrepareReply>>, t: PrepareTally) returns (s': State)
    requires Reaches(c, s) && c.n == 3 == |s.servers| && |a| <= 3 && 1 in s.servers[1].slots
    requires (1, 1) in s.proposers && s.proposers[(1, 1)].phase == Preparing(4, []) && s.proposers[(1, 1)].view == 1
    requires forall j :: 0 <= j < |a| && a[j].Some? ==> PrepareAns(1, 4, 1, j, a[j].value) in s.net
    requires forall m :: 0 <= m < |a| ==>
               !TallyPrepare(c.fix, 3, s.proposers[(1, 1)].v, s.servers[1].slots[1].highestN, a[..m]).stop
    requires t == TallyPrepare(c.fix, 3, s.proposers[(1, 1)].v, s.servers[1].slots[1].highestN, a)
    requires t.stop && t.seen <= 1 && t.majority == 2 && t.decided.None?
    requires (t.va == "" || t.va == s.proposers[(1, 1)].v) && (1, 1) !in s.servers[1].proposed
    ensures var x := s.proposers[(1, 1)].v;
      && Reaches(c, s') && AcceptReq(1, 1, x) in s'.net && s.net <= s'.net && s'.elections == s.elections
      && s'.proposers == s.proposers[(1, 1) := Proposer(x, 1, Accepting(x, []))]
    ensures |s'.servers| == 3 && s'.servers[0] == s.servers[0] && s'.servers[2] == s.servers[2]
    ensures var r, r' := s.servers[1], s'.servers[1];
      && r'.view == r.view && r'.lowestSlot == r.lowestSlot && r'.done == r.done && r'.me == r.me
      && 1 in r'.slots && r'.slots[1].status == r.slots[1].status
  {
    hide Reaches;
    assert a[..|a|] == a;
    var s1 := TakePromises(c, s, a, |a|);
    s' := Then(c, s1, FinishPrepare(1, 1));
  }

  /** A server that can still accept for slot 1. */
  ghost predicate Open(s: State, j: nat) {
    && j < |s.servers| && s.servers[j].lowestSlot == 0 && s.servers[j].LatestDone() == -1
    && (1 in s.servers[j].slots ==> s.servers[j].slots[1].status != DECIDED)
  }

  ghost predicate Ready(s: State, j: nat, view: nat) {
    Open(s, j) && s.servers[j].view == view && (1 in s.servers[j].slots ==> s.servers[j].slots[1].nP == -1)
  }

  ghost predicate Knows(s: State, j: nat, x: string) {
    j < |s.servers| && 1 in s.servers[j].Decided() && s.servers[j].Decided()[1] == x
  }

  /** Leader 0 gets `x` accepted by servers `j` and 2. */
  lemma TwoAccept(c: Cell, j: nat, x: string) returns (s: State, a: AcceptReply, b: AcceptReply)
    requires c.n == 3 && j < 2 && x != ""
    ensures Reaches(c, s) && |s.servers| == 3 && s.elections == map[]
    ensures s.proposers == map[(0, 1) := Proposer(x, 0, Accepting(x, []))]
    ensures AcceptAns(1, 0, x, j, a) in s.net && a.ok && a.value == "" && a.latestDone == -1
    ensures AcceptAns(1, 0, x, 2, b) in s.net && b.ok && b.value == "" && b.latestDone == -1
    ensures var lead := AddSlots(InitServer(c, 0), 1).(proposed := map[(0, 1) := x]);
      && s.servers[0] == (if j == 0 then Accept(lead, 1, 0, x).0 else lead)
      && s.servers[1] == (if j == 1 then Accept(InitServer(c, 1), 1, 0, x).0 else InitServer(c, 1))
      && s.servers[2] == Accept(InitServer(c, 2), 1, 0, x).0
  {
    hide Reaches, Enabled, Apply;
    Start0(c);
    s := ProposeIt(c, Init(c), 0, 0, x);
    s, a := AcceptIt(c, s, j, 0, x);
    s, b := AcceptIt(c, s, 2, 0, x);
  }
}
