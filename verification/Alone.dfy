/** Why validity takes two servers: a server alone counts its own blank promise as a decision. */
module Alone {
  import opened PaxosTypes
  import opened Handlers
  import opened Tallies
  import opened Cluster
  import opened Scenarios

  /** A run of a cell of one, as written, in which a slot for which "a" was started is decided blank. */
  lemma AloneItDecidesBlank(c: Cell) returns (s: State)
    requires c.n == 1 && c.fix == AS_WRITTEN
    ensures Reaches(c, s) && |s.servers| == 1
    ensures 0 in s.servers[0].Decided() && s.servers[0].Decided()[0] == ""
  {
    hide Reaches, Enabled, Apply;
    var r;
    s, r := PromisesItself(c);
    s := TakesItForDecided(c, s, r);
  }

  lemma PromisesItself(c: Cell) returns (s: State, r: PrepareReply)
    requires c.n == 1 && c.fix == AS_WRITTEN
    ensures Reaches(c, s) && |s.servers| == 1 && s.servers[0].lowestSlot == 0 && 0 in s.servers[0].slots
    ensures s.servers[0].slots[0].status != DECIDED
    ensures s.proposers == map[(0, 0) := Proposer("a", 0, Preparing(1, []))]
    ensures PrepareAns(0, 1, 0, 0, r) in s.net && r.ok && r.nA == 0 && r.vA == "" && r.value == ""
  {
    hide Reaches;
    Start0(c);
    var s1 := Then(c, Init(c), CallStart(0, 0, "a"));
    assert Launch(0, 0, "a", 0) in s1.net;
    assert AdvanceN(0, 0, 1) == 1;
    var s2 := Then(c, s1, Begin(0, 0, "a", 0));
    assert PrepareReq(0, 1, 0) in s2.net;
    r := Prepare(c.fix, s2.servers[0], 0, 1, 0).1.value;
    s := Then(c, s2, DeliverPrepare(0, 0, 1, 0));
  }

  lemma TakesItForDecided(c: Cell, s: State, r: PrepareReply) returns (s': State)
    requires c.n == 1 && c.fix == AS_WRITTEN && Reaches(c, s) && |s.servers| == 1
    requires s.servers[0].lowestSlot == 0 && 0 in s.servers[0].slots && s.servers[0].slots[0].status != DECIDED
    requires s.proposers == map[(0, 0) := Proposer("a", 0, Preparing(1, []))]
    requires PrepareAns(0, 1, 0, 0, r) in s.net && r.ok && r.nA == 0 && r.vA == "" && r.value == ""
    ensures Reaches(c, s') && |s'.servers| == 1
    ensures 0 in s'.servers[0].Decided() && s'.servers[0].Decided()[0] == ""
  {
    hide Reaches;
    var h := s.servers[0].slots[0].highestN;
    assert [Some(r)][..0] == [];
    assert TallyPrepare(AS_WRITTEN, 1, "a", h, [Some(r)]).decided == Some("");
    assert TallyPrepare(AS_WRITTEN, 1, "a", h, [Some(r)]).seen == 0;
    var s1 := Then(c, s, AnswerPrepare(0, 0, Some(r)));
    assert s1.proposers[(0, 0)].phase.prepares == [Some(r)];
    var s2 := Then(c, s1, FinishPrepare(0, 0));
    assert LearnReq(0, "") in s2.net;
    s' := Then(c, s2, DeliverLearn(0, 0, ""));
  }
}
