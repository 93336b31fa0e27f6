/** Each of the four repairs is needed, and so is assumption A: leave one out, and some run of a cell of three decides two
    values for a slot. */
module NeedForRepairs {
  import opened PaxosTypes
  import opened Handlers
  import opened Tallies
  import opened Cluster
  import opened Scenarios
  import opened Repaired

  // ---- The five runs ----

  ghost predicate Disagrees(s: State, i: nat, j: nat) {
    DecideBoth(s, i, j, 1) && s.servers[i].Decided()[1] != s.servers[j].Decided()[1]
  }

  /** A leader that falls through without a majority teaches a value nobody accepted; so does the next one. */
  lemma WithoutMajority(c: Cell) returns (s: State)
    requires c.n == 3 && !c.fix.needMajority
    ensures Reaches(c, s) && Disagrees(s, 1, 2)
  {
    hide Reaches, Enabled, Apply;
    s := DecidedUnheard(c);
    s := ElectIt(c, s);
    s := ProposeIt(c, s, 1, 1, "b");
    s := ConcludeIt(c, s, 1, [None, None, None]);
    s := LearnIt(c, s, 1, "b");
  }

  /** Leader 0 reaches nobody in its Accept phase, and server 2 learns its value. */
  lemma DecidedUnheard(c: Cell) returns (s: State)
    requires c.n == 3 && !c.fix.needMajority
    ensures Reaches(c, s) && |s.servers| == 3 && s.elections == map[] && s.proposers.Keys == {(0, 1)}
    ensures s.servers[1] == InitServer(c, 1) && s.servers[2] == Learn(InitServer(c, 2), 1, "a") && Knows(s, 2, "a")
  {
    hide Reaches, Enabled, Apply;
    Start0(c);
    s := ProposeIt(c, Init(c), 0, 0, "a");
    s := ConcludeIt(c, s, 0, [None, None, None]);
    s := LearnIt(c, s, 2, "a");
  }

  /** Leader 0 gets "a" accepted by the others; server 2 alone learns it. */
  lemma LeaderMissesIt(c: Cell) returns (s: State)
    requires c.n == 3
    ensures Reaches(c, s) && |s.servers| == 3 && s.elections == map[] && s.proposers.Keys == {(0, 1)}
    ensures s.proposers[(0, 1)].phase.Learning? && Knows(s, 2, "a")
    ensures s.servers[0] == AddSlots(InitServer(c, 0), 1).(proposed := map[(0, 1) := "a"])
    ensures s.servers[1] == Accept(InitServer(c, 1), 1, 0, "a").0
  {
    hide Reaches, Enabled, Apply;
    var a, b;
    s, a, b := TwoAccept(c, 1, "a");
    s := ConcludeIt(c, s, 0, [None, Some(a), Some(b)]);
    s := LearnIt(c, s, 2, "a");
  }

  /** Leader 0 gets "a" accepted by server 2 and itself, and learns it. */
  lemma OneMissesIt(c: Cell) returns (s: State)
    requires c.n == 3
    ensures Reaches(c, s) && |s.servers| == 3 && s.elections == map[] && s.proposers.Keys == {(0, 1)}
    ensures Knows(s, 0, "a") && s.servers[0].view == 0 && s.servers[1] == InitServer(c, 1)
    ensures Ready(s, 2, 0) && s.servers[2].highestAcceptedSeq == 1 && 1 in s.servers[2].slots
    ensures s.servers[2] == Accept(InitServer(c, 2), 1, 0, "a").0
  {
    hide Reaches, Enabled, Apply;
    var a, b;
    s, a, b := TwoAccept(c, 0, "a");
    s := ConcludeIt(c, s, 0, [Some(a), None, Some(b)]);
    s := LearnIt(c, s, 0, "a");
  }

  /** A leader that missed its own Accept and Learn calls proposes a second value in the same view. */
  lemma WithoutMemory(c: Cell) returns (s: State)
    requires c.n == 3 && !c.fix.keepProposal
    ensures Reaches(c, s) && Disagrees(s, 0, 2)
  {
    hide Reaches, Enabled, Apply;
    s := LeaderMissesIt(c);
    s := EndIt(c, s, 0);
    assert Knows(s, 2, "a");
    s := ProposeIt(c, s, 0, 0, "b");
    var a, b;
    s, a := AcceptIt(c, s, 0, 0, "b");
    s, b := AcceptIt(c, s, 1, 0, "b");
    s := ConcludeIt(c, s, 0, [Some(a), Some(b), None]);
    s := LearnIt(c, s, 0, "b");
    assert Knows(s, 2, "a");
  }

  /** All promises report the new view as `n_a`, so the new leader takes the first one, which is blank. */
  lemma WithoutRanks(c: Cell) returns (s: State)
    requires c.n == 3 && !c.fix.rankByAcceptedView
    ensures Reaches(c, s) && Disagrees(s, 0, 1)
  {
    hide Reaches, Enabled, Apply;
    s := ChosenBlindly(c);
    var a, b;
    s, a := AcceptIt(c, s, 1, 1, "b");
    s, b := AcceptIt(c, s, 2, 1, "b");
    s := ConcludeIt(c, s, 1, [None, Some(a), Some(b)]);
    s := LearnIt(c, s, 1, "b");
    assert Knows(s, 0, "a");
  }

  lemma ChosenBlindly(c: Cell) returns (s: State)
    requires c.n == 3 && !c.fix.rankByAcceptedView
    ensures Reaches(c, s) && |s.servers| == 3 && Knows(s, 0, "a") && AcceptReq(1, 1, "b") in s.net
    ensures s.servers[1].view == 1 == s.servers[2].view && s.servers[1].lowestSlot == 0 == s.servers[2].lowestSlot
    ensures s.servers[1].LatestDone() == -1 == s.servers[2].LatestDone()
    ensures 1 in s.servers[1].slots && s.servers[1].slots[1].status != DECIDED
    ensures 1 in s.servers[2].slots && s.servers[2].slots[1].status != DECIDED
    ensures (1, 1) in s.proposers && s.proposers[(1, 1)] == Proposer("b", 1, Accepting("b", []))
  {
    hide Reaches, Enabled, Apply;
    s := OneMissesIt(c);
    s := ElectIt(c, s);
    s := PrepareIt(c, s, "b");
    var p, r;
    s, p := PromiseIt(c, s, 1);
    s, r := PromiseIt(c, s, 2);
    var t := BlankFirst(c.fix, p, r);
    s := ChooseIt(c, s, [None, Some(p), Some(r)], t);
    assert Knows(s, 0, "a");
  }

  lemma BlankFirst(fix: Repairs, p: PrepareReply, r: PrepareReply) returns (t: PrepareTally)
    requires !fix.rankByAcceptedView
    requires p.ok && p.nA == 1 && p.vA == "" && p.value == "" && r.ok && r.nA == 1 && r.value == ""
    ensures t == TallyPrepare(fix, 3, "b", 1, [None, Some(p), Some(r)])
    ensures t.stop && t.seen == 1 && t.majority == 2 && t.decided.None? && t.va == ""
    ensures forall m :: 0 <= m < 3 ==> !TallyPrepare(fix, 3, "b", 1, [None, Some(p), Some(r)][..m]).stop
  {
    var one: seq<Option<PrepareReply>>, two, all := [None], [None, Some(p)], [None, Some(p), Some(r)];
    assert all[..2] == two && two[..1] == one && all[..1] == one && one[..0] == [] && all[..0] == [];
    assert TallyPrepare(fix, 3, "b", 1, one) == TallyPrepare(fix, 3, "b", 1, []);
    assert TallyPrepare(fix, 3, "b", 1, two) == CountPrepare(fix, 3, TallyPrepare(fix, 3, "b", 1, one), Some(p));
    t := TallyPrepare(fix, 3, "b", 1, all);
    assert t == CountPrepare(fix, 3, TallyPrepare(fix, 3, "b", 1, two), Some(r));
  }

  /** Server 0 answers the new leader's Prepare, and afterwards still accepts for the old view. */
  lemma WithoutPromises(c: Cell) returns (s: State)
    requires c.n == 3 && c.fix.rankByAcceptedView && !c.fix.promiseViews
    ensures Reaches(c, s) && Disagrees(s, 1, 2)
  {
    hide Reaches, Enabled, Apply;
    s := OldLeaderDecides(c);
    var a, b;
    s, a := AcceptIt(c, s, 0, 1, "b");
    s, b := AcceptIt(c, s, 1, 1, "b");
    s := ConcludeIt(c, s, 1, [Some(a), Some(b), None]);
    s := LearnIt(c, s, 1, "b");
    assert Knows(s, 2, "a");
  }

  lemma OldLeaderDecides(c: Cell) returns (s: State)
    requires c.n == 3 && c.fix.rankByAcceptedView && !c.fix.promiseViews
    ensures Reaches(c, s) && |s.servers| == 3 && Knows(s, 2, "a") && Open(s, 0) && Open(s, 1)
    ensures s.servers[0].view <= 1 && s.servers[1].view == 1 && AcceptReq(1, 1, "b") in s.net
    ensures (1, 1) in s.proposers && s.proposers[(1, 1)] == Proposer("b", 1, Accepting("b", []))
  {
    hide Reaches, Enabled, Apply;
    var a, b;
    s, b := TwoLeaders(c);
    s, a := AcceptIt(c, s, 0, 0, "a");
    s := ConcludeIt(c, s, 0, [Some(a), None, Some(b)]);
    s := LearnIt(c, s, 2, "a");
    assert Knows(s, 2, "a");
  }

  /** Both leaders are in their Accept phase; server 2 has accepted "a" for the old one. */
  lemma TwoLeaders(c: Cell) returns (s: State, b: AcceptReply)
    requires c.n == 3 && c.fix.rankByAcceptedView && !c.fix.promiseViews
    ensures Reaches(c, s) && |s.servers| == 3
    ensures AcceptReq(1, 0, "a") in s.net && AcceptReq(1, 1, "b") in s.net
    ensures AcceptAns(1, 0, "a", 2, b) in s.net && b.ok && b.value == "" && b.latestDone == -1
    ensures (0, 1) in s.proposers && s.proposers[(0, 1)] == Proposer("a", 0, Accepting("a", []))
    ensures (1, 1) in s.proposers && s.proposers[(1, 1)] == Proposer("b", 1, Accepting("b", []))
    ensures s.servers[0].view == 0 && s.servers[1].view == 1
    ensures Open(s, 0) && Open(s, 1) && Open(s, 2)
  {
    hide Reaches, Enabled, Apply;
    var p, r;
    s, b, p, r := TwoPromises(c);
    var t := NothingYet(c.fix, p, r);
    s := ChooseIt(c, s, [Some(p), Some(r)], t);
  }

  /** Leader 1 has the promises of servers 0 and 1, which have accepted nothing. */
  lemma TwoPromises(c: Cell) returns (s: State, b: AcceptReply, p: PrepareReply, r: PrepareReply)
    requires c.n == 3 && !c.fix.promiseViews
    ensures Reaches(c, s) && |s.servers| == 3 && 1 in s.servers[1].slots && s.servers[1].slots[1].highestN == 1
    ensures AcceptReq(1, 0, "a") in s.net && AcceptAns(1, 0, "a", 2, b) in s.net
    ensures b.ok && b.value == "" && b.latestDone == -1
    ensures s.proposers == map[(0, 1) := Proposer("a", 0, Accepting("a", [])), (1, 1) := Proposer("b", 1, Preparing(4, []))]
    ensures s.servers[0].view == 0 && s.servers[1].view == 1 && (1, 1) !in s.servers[1].proposed
    ensures Open(s, 0) && Open(s, 1) && Open(s, 2)
    ensures PrepareAns(1, 4, 1, 0, p) in s.net && PrepareAns(1, 4, 1, 1, r) in s.net
    ensures p.ok && p.nA <= 1 && p.acceptedView == -1 && p.value == ""
    ensures r.ok && r.nA <= 1 && r.acceptedView == -1 && r.value == ""
  {
    hide Reaches, Enabled, Apply;
    s, b := OneAccept(c);
    s := PrepareIt(c, s, "b");
    s, p := PromiseIt(c, s, 0);
    s, r := PromiseIt(c, s, 1);
  }

  lemma OneAccept(c: Cell) returns (s: State, b: AcceptReply)
    requires c.n == 3
    ensures Reaches(c, s) && |s.servers| == 3 && s.elections == map[]
    ensures AcceptReq(1, 0, "a") in s.net
    ensures AcceptAns(1, 0, "a", 2, b) in s.net && b.ok && b.value == "" && b.latestDone == -1
    ensures s.proposers == map[(0, 1) := Proposer("a", 0, Accepting("a", []))]
    ensures Ready(s, 0, 0) && Ready(s, 1, 1) && Ready(s, 2, 1)
    ensures 1 in s.servers[0].slots ==> s.servers[0].slots[1].acceptedView == -1
    ensures s.servers[1] == InitServer(c, 1).(view := 1, electionHappened := true, highestAcceptedSeq := 1)
  {
    hide Reaches, Enabled, Apply;
    Start0(c);
    s := ProposeIt(c, Init(c), 0, 0, "a");
    s, b := AcceptIt(c, s, 2, 0, "a");
    s := ElectIt(c, s);
  }

  lemma NothingYet(fix: Repairs, p: PrepareReply, r: PrepareReply) returns (t: PrepareTally)
    requires fix.rankByAcceptedView
    requires p.ok && p.nA <= 1 && p.acceptedView == -1 && p.value == ""
    requires r.ok && r.nA <= 1 && r.acceptedView == -1 && r.value == ""
    ensures t == TallyPrepare(fix, 3, "b", 1, [Some(p), Some(r)])
    ensures t.stop && t.seen <= 1 && t.majority == 2 && t.decided.None? && t.va == "b"
    ensures forall m :: 0 <= m < 2 ==> !TallyPrepare(fix, 3, "b", 1, [Some(p), Some(r)][..m]).stop
  {
    var one, all := [Some(p)], [Some(p), Some(r)];
    assert all[..1] == one && one[..0] == [] && all[..0] == [];
    assert TallyPrepare(fix, 3, "b", 1, one) == CountPrepare(fix, 3, TallyPrepare(fix, 3, "b", 1, []), Some(p));
    t := TallyPrepare(fix, 3, "b", 1, all);
    assert t == CountPrepare(fix, 3, TallyPrepare(fix, 3, "b", 1, one), Some(r));
  }

  /** Two elections of server 1 overlap. The older one is refused by a server that acknowledged the newer one, and takes
      server 1 to the view it is still standing for: it leads that view without having won it, and skips Prepare. */
  lemma WithOverlap(c: Cell) returns (s: State)
    requires c.n == 3 && !c.oneElection
    ensures Reaches(c, s) && Disagrees(s, 0, 1)
  {
    hide Reaches, Enabled, Apply;
    s := Usurped(c);
    s := ProposeIt(c, s, 1, 4, "b");
    var a, b;
    s, a := AcceptIt(c, s, 1, 4, "b");
    s, b := AcceptIt(c, s, 2, 4, "b");
    s := ConcludeIt(c, s, 1, [None, Some(a), Some(b)]);
    s := LearnIt(c, s, 1, "b");
    assert Knows(s, 0, "a");
  }

  lemma Usurped(c: Cell) returns (s: State)
    requires c.n == 3 && !c.oneElection
    ensures Reaches(c, s) && MayPropose(c, s, 1, 4) && Knows(s, 0, "a")
    ensures s.servers[1].highestAcceptedSeq == 0 && s.servers[1].proposed == map[] && s.servers[1].slots == map[]
    ensures Open(s, 1) && Open(s, 2) && s.servers[2].view == 0
  {
    hide Reaches, Enabled, Apply;
    s := TwoStand(c);
    s := RefuseIt(c, s);
  }

  /** Server 1 stands for view 1, hears that server 2 stands for view 2, and stands for view 4. */
  lemma TwoStand(c: Cell) returns (s: State)
    requires c.n == 3 && !c.oneElection
    ensures Reaches(c, s) && |s.servers| == 3 && Knows(s, 0, "a") && Open(s, 2) && s.servers[2].view == 0
    ensures (1, 1) !in s.proposers && ElectReq(1) in s.net && ElectReq(4) in s.net && s.servers[0].view == 0
    ensures (1, 0) in s.elections && s.elections[(1, 0)] == Election(1, [])
    ensures s.servers[1] == InitServer(c, 1).(view := 2, leaderDead := true, electionHappened := true)
  {
    hide Reaches, Enabled, Apply;
    s := OneMissesIt(c);
    s := Suspect(c, s, 1, 0, 0, 1);
    s := Suspect(c, s, 2, 0, 0, 2);
    s := HearIt(c, s, 1, 2);
    s := Suspect(c, s, 1, 1, 2, 4);
  }

  /** A server moves to the view it is asked to acknowledge. */
  lemma HearIt(c: Cell, s: State, i: nat, view: nat) returns (s': State)
    requires Reaches(c, s) && c.n == 3 == |s.servers| && i < 3 && ElectReq(view) in s.net && view % 3 != i
    requires s.servers[i].view < view
    ensures Reaches(c, s') && s'.proposers == s.proposers && s'.elections == s.elections && s.net <= s'.net
    ensures s'.servers == s.servers[i := s.servers[i].(view := view, leaderDead := false, missedHeartbeats := 0)]
  {
    hide Reaches;
    s' := Then(c, s, DeliverElect(i, view));
  }

  lemma RefuseIt(c: Cell, s: State) returns (s': State)
    requires Reaches(c, s) && c.n == 3 == |s.servers| && s.servers[0].view == 0 && s.servers[1].numServers == 3
    requires ElectReq(1) in s.net && ElectReq(4) in s.net
    requires (1, 0) in s.elections && s.elections[(1, 0)] == Election(1, []) && s.servers[1].view == 2
    ensures Reaches(c, s') && s'.proposers == s.proposers
    ensures s'.servers == s.servers[0 := s.servers[0].(view := 4, leaderDead := false, missedHeartbeats := 0)]
                                   [1 := s.servers[1].(view := 4, leaderDead := false, missedHeartbeats := 0)]
  {
    hide Reaches;
    var s1 := HearIt(c, s, 0, 4);
    var s2 := Then(c, s1, DeliverElect(0, 1));
    var no := ElectReply(false, 4, 0);
    assert ElectAns(1, 0, no) in s2.net;
    var s3 := Then(c, s2, AnswerElect(1, 0, Some(no)));
    assert s3.elections[(1, 0)].answers == [Some(no)];
    s' := RefusedIt(c, s3, no);
  }

  lemma RefusedIt(c: Cell, s: State, no: ElectReply) returns (s': State)
    requires Reaches(c, s) && c.n == 3 == |s.servers| && no == ElectReply(false, 4, 0)
    requires (1, 0) in s.elections && s.elections[(1, 0)] == Election(1, [Some(no)]) && s.servers[1].view == 2
    ensures Reaches(c, s') && s'.proposers == s.proposers
    ensures s'.servers == s.servers[1 := s.servers[1].(view := 4, leaderDead := false, missedHeartbeats := 0)]
  {
    hide Reaches;
    var s1 := Then(c, s, AnswerElect(1, 0, None));
    var s2 := Then(c, s1, AnswerElect(1, 0, None));
    var one: seq<Option<ElectReply>>, two: seq<Option<ElectReply>>, answers := [Some(no)], [Some(no), None], [Some(no), None, None];
    assert s2.elections[(1, 0)].answers == answers;
    assert answers[..2] == two && two[..1] == one && one[..0] == [];
    assert TallyElect(one) == ElectTally(0, 1, 4, -1) && TallyElect(two) == TallyElect(one);
    s' := Then(c, s2, FinishElection(1, 0));
  }

  /** A cell of three agrees in every run exactly when all four repairs are made and no elections of a server overlap. */
  lemma AgreementExactlyWhenRepaired(c: Cell)
    requires c.n == 3
    ensures (forall s :: Reaches(c, s) ==> Consistent(s)) <==> c.fix.All() && c.oneElection
  {
    if c.fix.All() && c.oneElection {
      forall s | Reaches(c, s)
        ensures Consistent(s)
      {
        var states, steps :| Run(c, states, steps) && states[|states| - 1] == s;
        RepairedAgreement(c, states, steps, |states| - 1);
      }
    } else if !c.oneElection {
      var s := WithOverlap(c);
    } else if !c.fix.needMajority {
      var s := WithoutMajority(c);
    } else if !c.fix.keepProposal {
      var s := WithoutMemory(c);
    } else if !c.fix.rankByAcceptedView {
      var s := WithoutRanks(c);
    } else {
      var s := WithoutPromises(c);
    }
  }
}
