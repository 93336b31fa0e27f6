/** When an election is won, tried again or lost, said over the answers: for every number of servers, as written and with
    any overlap of elections. */
module Elections {
  import opened PaxosTypes
  import opened Handlers
  import opened Tallies
  import opened Quorums
  import opened Cluster
  import opened Progress
  import opened Basics

  ghost predicate Refuses(a: seq<Option<ElectReply>>, k: nat) {
    k < |a| && a[k].Some? && !a[k].value.ok
  }

  ghost predicate Acknowledges(a: seq<Option<ElectReply>>, k: nat) {
    k < |a| && a[k].Some? && a[k].value.ok
  }

  /** The servers behind candidate `i` after a round. */
  ghost function Supporters(a: seq<Option<ElectReply>>, i: nat): set<nat> {
    (set k: nat | k < |a| && Acknowledges(a, k)) + {i}
  }

  ghost predicate Unopposed(a: seq<Option<ElectReply>>) {
    forall k: nat :: !Refuses(a, k)
  }

  /** `h` is the largest of `own` and what the acknowledgements report. */
  ghost predicate HighestOf(own: int, a: seq<Option<ElectReply>>, h: int) {
    && own <= h && (forall k: nat :: Acknowledges(a, k) ==> a[k].value.highestSeq <= h)
    && (h == own || exists k: nat :: Acknowledges(a, k) && a[k].value.highestSeq == h)
  }

  /** `v` is the largest of the views of the refusals. */
  ghost predicate HighestRefusal(a: seq<Option<ElectReply>>, v: int) {
    && (exists k: nat :: Refuses(a, k) && a[k].value.view == v)
    && forall k: nat :: Refuses(a, k) ==> a[k].value.view <= v
  }

  // ---- One round, in the object's terms ----

  /** The verdict of a round; a candidate that has been overtaken meanwhile cannot win any more. */
  ghost predicate VerdictIs(r: Server, i: nat, target: nat, a: seq<Option<ElectReply>>, v: Verdict) {
    if !Unopposed(a) then
      && v.Ended? && !v.won
      && v.server == r.(view := v.server.view, leaderDead := v.server.leaderDead,
                        missedHeartbeats := v.server.missedHeartbeats)
      && forall h :: HighestRefusal(a, h) ==> v.server.view == if h > target then Max(r.view, h) else r.view
    else if Quorum(r.numServers, Supporters(a, i)) && r.view >= target then v == Ended(r, false)
    else if Quorum(r.numServers, Supporters(a, i)) then
      && v.Ended? && v.won
      && v.server == r.(view := target, leaderDead := false, missedHeartbeats := 0,
                        highestAcceptedSeq := v.server.highestAcceptedSeq)
      && HighestOf(r.highestAcceptedSeq, a, v.server.highestAcceptedSeq)
    else v.Retry?
  }

  lemma {:induction false} MaxReported(a: seq<Option<ElectReply>>)
    ensures var h := TallyElect(a).maxHighest;
      h == -1 || exists k: nat :: Acknowledges(a, k) && a[k].value.highestSeq == h
  {
    if a == [] {
    } else {
      var last := |a| - 1;
      MaxReported(a[..last]);
      var h0, h := TallyElect(a[..last]).maxHighest, TallyElect(a).maxHighest;
      if h != h0 {
        assert Acknowledges(a, last) && a[last].value.highestSeq == h;
      } else if h0 != -1 {
        var k: nat :| Acknowledges(a[..last], k) && a[..last][k].value.highestSeq == h0;
        assert Acknowledges(a, k) && a[k].value.highestSeq == h;
      }
    }
  }

  lemma CountIsSupport(a: seq<Option<ElectReply>>, i: nat, n: nat)
    requires i < n && |a| == n && a[i].None?
    ensures Supporters(a, i) <= Ids(n) && |Supporters(a, i)| == |ElectOks(a)| + 1
    ensures Quorum(n, Supporters(a, i)) <==> |ElectOks(a)| + 1 > n / 2
  {
    assert Supporters(a, i) == ElectOks(a) + {i};
    assert i !in ElectOks(a);
  }

  lemma RefusalsMean(a: seq<Option<ElectReply>>, target: nat, h: int)
    requires HighestRefusal(a, h)
    ensures var t := TallyElect(a);
      t.rejects > 0 && if h > target then t.highestView == h else t.highestView <= target
  {
    ElectMeaning(a);
    var k: nat :| Refuses(a, k) && a[k].value.view == h;
    assert !a[k].value.ok;
  }

  lemma UnopposedMeans(a: seq<Option<ElectReply>>)
    ensures Unopposed(a) <==> TallyElect(a).rejects == 0
    ensures Unopposed(a) ==> TallyElect(a).highestView == -1
  {
    ElectMeaning(a);
    if TallyElect(a).rejects != 0 {
      var k :| 0 <= k < |a| && a[k].Some? && !a[k].value.ok;
      assert Refuses(a, k);
    }
  }

  lemma AcknowledgementsMean(own: int, a: seq<Option<ElectReply>>)
    requires own >= -1
    ensures HighestOf(own, a, Max(own, TallyElect(a).maxHighest))
    ensures TallyElect(a).majority == |ElectOks(a)|
  {
    ElectMeaning(a);
    MaxReported(a);
  }

  lemma VerdictMeans(r: Server, i: nat, target: nat, a: seq<Option<ElectReply>>)
    requires i < r.numServers == |a| && a[i].None? && r.highestAcceptedSeq >= -1
    ensures VerdictIs(r, i, target, a, Conclude(r, target, TallyElect(a)))
  {
    CountIsSupport(a, i, r.numServers);
    UnopposedMeans(a);
    AcknowledgementsMean(r.highestAcceptedSeq, a);
    forall h | HighestRefusal(a, h)
      ensures if h > target then TallyElect(a).highestView == h else TallyElect(a).highestView <= target
    {
      RefusalsMean(a, target, h);
    }
    hide TallyElect, Unopposed, HighestOf, HighestRefusal, Quorum;
  }

  /** The loop leaves with the first round that is refused or supported by a majority, and goes on until there is one. */
  lemma {:induction false} ElectionRepeats(r: Server, i: nat, target: nat, rounds: seq<seq<Option<ElectReply>>>)
    returns (k: nat)
    requires i < r.numServers && r.highestAcceptedSeq >= -1
    requires forall m :: 0 <= m < |rounds| ==> |rounds[m]| == r.numServers && rounds[m][i].None?
    ensures k <= |rounds|
    ensures forall m :: 0 <= m < k ==> Unopposed(rounds[m]) && !Quorum(r.numServers, Supporters(rounds[m], i))
    ensures if k == |rounds| then FirstVerdict(r, target, rounds) == Retry
            else
              && VerdictIs(r, i, target, rounds[k], FirstVerdict(r, target, rounds))
              && FirstVerdict(r, target, rounds).Ended?
  {
    if rounds == [] {
      k := 0;
    } else {
      VerdictMeans(r, i, target, rounds[0]);
      if Conclude(r, target, TallyElect(rounds[0])).Ended? {
        k := 0;
      } else {
        k := ElectionRepeats(r, i, target, rounds[1..]);
        k := k + 1;
      }
    }
  }

  // ---- Rounds of the cell ----

  /** A candidate does not ask itself. */
  ghost predicate OthersOnly(c: Cell, s: State) {
    forall i, x :: (i, x) in s.elections ==>
      && |s.elections[(i, x)].answers| <= c.n
      && (i < |s.elections[(i, x)].answers| ==> s.elections[(i, x)].answers[i].None?)
  }

  lemma StaysOthersOnly(c: Cell, s: State, t: Step)
    requires OthersOnly(c, s) && Enabled(c, s, t)
    ensures OthersOnly(c, Apply(c, s, t))
  {
    var s' := Apply(c, s, t);
    forall i, x | (i, x) in s'.elections
      ensures |s'.elections[(i, x)].answers| <= c.n
      ensures i < |s'.elections[(i, x)].answers| ==> s'.elections[(i, x)].answers[i].None?
    {
      if (i, x) in s.elections && s.elections[(i, x)] == s'.elections[(i, x)] {
      } else {
        AnswersOfOthers(c, s, t, i, x);
      }
    }
  }

  lemma AnswersOfOthers(c: Cell, s: State, t: Step, i: nat, x: nat)
    requires Enabled(c, s, t) && (i, x) in Apply(c, s, t).elections
    requires (i, x) in s.elections ==> s.elections[(i, x)] != Apply(c, s, t).elections[(i, x)]
    ensures var a := Apply(c, s, t).elections[(i, x)].answers;
      || a == []
      || (t.AnswerElect? && t.i == i && t.x == x && (i, x) in s.elections && |s.elections[(i, x)].answers| < c.n
          && a == s.elections[(i, x)].answers + [t.electAnswer] && (t.electAnswer.Some? ==> |a| - 1 != i))
  {
  }

  lemma {:induction false} RunOthersOnly(c: Cell, states: seq<State>, steps: seq<Step>, k: nat)
    requires Run(c, states, steps) && k < |states|
    ensures OthersOnly(c, states[k])
  {
    hide Enabled, Apply;
    if k == 0 {
    } else {
      RunOthersOnly(c, states, steps, k - 1);
      StaysOthersOnly(c, states[k - 1], steps[k - 1]);
    }
  }

  lemma {:induction false} HighestNotNegative(c: Cell, states: seq<State>, steps: seq<Step>, k: nat, i: nat)
    requires Run(c, states, steps) && k < |states| && i < c.n
    ensures |states[k].servers| == c.n && states[k].servers[i].highestAcceptedSeq >= 0
  {
    hide Enabled, Apply;
    OnlyForward(c, states, steps, 0, k);
    assert ServerForward(states[0].servers[i], states[k].servers[i]);
  }

  /** Election `x` of server `i` ends: won or lost. */
  ghost predicate Ends(s: State, s': State, i: nat, x: nat) {
    s'.elections == s.elections - {(i, x)} && s'.net == s.net && s'.proposers == s.proposers
  }

  ghost predicate Wins(s: State, s': State, i: nat, target: nat, a: seq<Option<ElectReply>>)
    requires i < |s.servers| == |s'.servers|
  {
    var r, r' := s.servers[i], s'.servers[i];
    && HighestOf(r.highestAcceptedSeq, a, r'.highestAcceptedSeq)
    && r' == r.(view := target, leaderDead := false, missedHeartbeats := 0, highestAcceptedSeq := r'.highestAcceptedSeq)
    && s'.log == s.log + [Acked(i, target, r'.highestAcceptedSeq), Won(i, target)]
  }

  ghost predicate Loses(s: State, s': State, i: nat, target: nat, a: seq<Option<ElectReply>>)
    requires i < |s.servers| == |s'.servers|
  {
    var r, r' := s.servers[i], s'.servers[i];
    && r' == r.(view := r'.view, leaderDead := r'.leaderDead, missedHeartbeats := r'.missedHeartbeats)
    && s'.log == s.log && s'.wins == s.wins
    && forall h :: HighestRefusal(a, h) ==> r'.view == if h > target then Max(r.view, h) else r.view
  }

  ghost predicate TriesAgain(s: State, s': State, i: nat, x: nat, target: nat) {
    s' == s.(elections := s.elections[(i, x) := Election(target, [])])
  }

  /** What comes of a round of election `x` of server `i` with these answers. */
  ghost predicate Decides(c: Cell, s: State, s': State, i: nat, x: nat, el: Election)
    requires i < |s.servers| == |s'.servers|
  {
    if !Unopposed(el.answers) then
      Ends(s, s', i, x) && Loses(s, s', i, el.target, el.answers)
    else if !Quorum(c.n, Supporters(el.answers, i)) then
      TriesAgain(s, s', i, x, el.target)
    else if s.servers[i].view < el.target then
      Ends(s, s', i, x) && Wins(s, s', i, el.target, el.answers)
    else
      Ends(s, s', i, x) && s'.servers == s.servers && s'.log == s.log && s'.wins == s.wins
  }

  /** A finished round of a candidate below its target is won exactly when nobody refused and those who acknowledged it
      are a majority with itself; it is tried again exactly when nobody refused but they are no majority. */
  lemma RoundVerdict(c: Cell, states: seq<State>, steps: seq<Step>, k: nat)
    requires Run(c, states, steps) && k < |steps| && steps[k].FinishElection?
    ensures var s, s', t := states[k], states[k + 1], steps[k];
      && t.i < |s.servers| == |s'.servers| == c.n && (t.i, t.x) in s.elections
      && Decides(c, s, s', t.i, t.x, s.elections[(t.i, t.x)])
  {
    var s, t := states[k], steps[k];
    assert Enabled(c, s, t) && states[k + 1] == Apply(c, s, t);
    RunBasic(c, states, steps, k);
    RunOthersOnly(c, states, steps, k);
    HighestNotNegative(c, states, steps, k, t.i);
    var el := s.elections[(t.i, t.x)];
    VerdictMeans(s.servers[t.i], t.i, el.target, el.answers);
    VerdictShows(c, s, t.i, t.x);
  }

  lemma VerdictShows(c: Cell, s: State, i: nat, x: nat)
    requires |s.servers| == c.n && i < c.n && Enabled(c, s, FinishElection(i, x))
    requires var el := s.elections[(i, x)];
      s.servers[i].numServers == c.n
      && VerdictIs(s.servers[i], i, el.target, el.answers, Conclude(s.servers[i], el.target, TallyElect(el.answers)))
    ensures Decides(c, s, Apply(c, s, FinishElection(i, x)), i, x, s.elections[(i, x)])
  {
    hide Conclude, TallyElect, Unopposed, HighestOf, Quorum, Supporters;
    var s' := Apply(c, s, FinishElection(i, x));
    assert s.net + {} == s.net;
    var el := s.elections[(i, x)];
    assert s.servers[i := s.servers[i]] == s.servers;
    assert s.log + [] == s.log;
  }
}
