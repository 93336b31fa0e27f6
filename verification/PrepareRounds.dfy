/** What a Prepare round does, said over the answers it got and the message it sends: as written and under any repairs. */
module PrepareRounds {
  import opened PaxosTypes
  import opened Handlers
  import opened Tallies
  import opened Cluster
  import opened Progress
  import opened Basics

  // ---- The answers of a round ----

  ghost predicate OkAt(a: seq<Option<PrepareReply>>, k: nat) {
    k < |a| && a[k].Some? && a[k].value.ok
  }

  ghost function OksOf(a: seq<Option<PrepareReply>>): set<nat> {
    set k: nat | k < |a| && OkAt(a, k)
  }

  ghost predicate ReportsDecision(a: seq<Option<PrepareReply>>, k: nat) {
    OkAt(a, k) && a[k].value.value != ""
  }

  /** An OK answer reported a decision, or a majority answered OK. */
  ghost predicate Enough(n: nat, a: seq<Option<PrepareReply>>) {
    (exists k: nat :: ReportsDecision(a, k)) || |OksOf(a)| > n / 2
  }

  /** Nobody is asked any more once there are enough answers. */
  ghost predicate InProgress(n: nat, a: seq<Option<PrepareReply>>) {
    forall m :: 0 <= m < |a| ==> !Enough(n, a[..m])
  }

  /** What an answer says its value was accepted in; -1 says that nothing was. As written this is `n_a`. */
  function SaidView(fix: Repairs, r: PrepareReply): int {
    if fix.rankByAcceptedView then r.acceptedView else r.nA
  }

  /** The OK answer `k` says a higher view than those before it. */
  ghost predicate Record(fix: Repairs, a: seq<Option<PrepareReply>>, k: nat) {
    && OkAt(a, k) && SaidView(fix, a[k].value) >= 0
    && forall j: nat :: j < k && OkAt(a, j) ==> SaidView(fix, a[j].value) < SaidView(fix, a[k].value)
  }

  /** The first OK answer that says the highest view. */
  ghost predicate Best(fix: Repairs, a: seq<Option<PrepareReply>>, k: nat) {
    Record(fix, a, k) && forall j: nat :: OkAt(a, j) ==> SaidView(fix, a[j].value) <= SaidView(fix, a[k].value)
  }

  /** The proposer takes the value of the best answer, and its own `v` if that is blank or nobody says any view. */
  ghost predicate Settles(fix: Repairs, a: seq<Option<PrepareReply>>, v: string, x: string) {
    && (forall k: nat :: Best(fix, a, k) ==> x == if a[k].value.vA == "" then v else a[k].value.vA)
    && ((forall k: nat :: !Best(fix, a, k)) ==> x == v)
  }

  /** An answer whose `n_a` can make the proposer step down. */
  ghost predicate ShowsView(fix: Repairs, a: seq<Option<PrepareReply>>, k: nat) {
    k < |a| && a[k].Some? && (a[k].value.ok || fix.promiseViews)
  }

  // ---- The tally, in these terms ----

  ghost predicate CountsMean(n: nat, a: seq<Option<PrepareReply>>, t: PrepareTally) {
    && t.majority == |OksOf(a)| && t.rejects <= t.majority && t.stop == Enough(n, a)
    && (t.decided.None? <==> forall k: nat :: !ReportsDecision(a, k))
    && (t.decided.Some? ==> a != [] && ReportsDecision(a, |a| - 1) && t.decided.value == a[|a| - 1].value.value)
  }

  ghost predicate SeenMeans(fix: Repairs, a: seq<Option<PrepareReply>>, t: PrepareTally) {
    && t.seen >= -1 && (forall k: nat :: ShowsView(fix, a, k) ==> a[k].value.nA <= t.seen)
    && (t.seen == -1 || exists k: nat :: ShowsView(fix, a, k) && a[k].value.nA == t.seen)
  }

  ghost predicate TopMeans(fix: Repairs, v: string, a: seq<Option<PrepareReply>>, t: PrepareTally) {
    && t.top >= -1 && (forall k: nat :: OkAt(a, k) ==> SaidView(fix, a[k].value) <= t.top)
    && (t.top == -1 ==> t.va == v)
    && (t.top >= 0 ==> exists k: nat :: Record(fix, a, k) && SaidView(fix, a[k].value) == t.top && t.va == a[k].value.vA)
  }

  /** The proposal numbers that a proposer learns to exceed. */
  ghost predicate NumbersMean(fix: Repairs, h: int, a: seq<Option<PrepareReply>>, highestN: int) {
    && h <= highestN
    && (forall k: nat :: OkAt(a, k) && !Record(fix, a, k) ==> a[k].value.highestN <= highestN)
    && (highestN == h || exists k: nat :: OkAt(a, k) && !Record(fix, a, k) && a[k].value.highestN == highestN)
  }

  lemma Prefix(n: nat, a: seq<Option<PrepareReply>>)
    requires a != [] && InProgress(n, a)
    ensures InProgress(n, a[..|a| - 1]) && !Enough(n, a[..|a| - 1])
  {
    var b := a[..|a| - 1];
    forall m | 0 <= m < |b|
      ensures !Enough(n, b[..m])
    {
      assert b[..m] == a[..m];
    }
  }

  lemma OneMoreOk(a: seq<Option<PrepareReply>>)
    requires a != []
    ensures var last := |a| - 1;
      && (forall k: nat :: k < last ==> (OkAt(a, k) <==> OkAt(a[..last], k)))
      && OksOf(a) == (if OkAt(a, last) then OksOf(a[..last]) + {last} else OksOf(a[..last]))
      && |OksOf(a)| == |OksOf(a[..last])| + if OkAt(a, last) then 1 else 0
  {
    var last := |a| - 1;
    assert forall k: nat :: k < last ==> a[..last][k] == a[k];
    assert OksOf(a) == (if OkAt(a, last) then OksOf(a[..last]) + {last} else OksOf(a[..last]));
  }

  lemma CountsOneMore(fix: Repairs, n: pos, a: seq<Option<PrepareReply>>, t0: PrepareTally)
    requires n >= 2 && a != [] && InProgress(n, a) && CountsMean(n, a[..|a| - 1], t0)
    requires forall r :: r in t0.counts ==> t0.counts[r] == 1 && r <= t0.top
    ensures CountsMean(n, a, CountPrepare(fix, n, t0, a[|a| - 1]))
  {
    var last := |a| - 1;
    Prefix(n, a);
    OneMoreOk(a);
    assert forall k: nat :: k < last ==> (ReportsDecision(a, k) <==> ReportsDecision(a[..last], k));
    assert ReportsDecision(a, last) ==> Enough(n, a);
  }

  lemma SeenOneMore(fix: Repairs, n: pos, a: seq<Option<PrepareReply>>, t0: PrepareTally)
    requires a != [] && SeenMeans(fix, a[..|a| - 1], t0)
    ensures SeenMeans(fix, a, CountPrepare(fix, n, t0, a[|a| - 1]))
  {
    var last := |a| - 1;
    var t := CountPrepare(fix, n, t0, a[last]);
    assert forall k: nat :: k < last ==> (ShowsView(fix, a, k) <==> ShowsView(fix, a[..last], k));
    if t.seen != t0.seen {
      assert ShowsView(fix, a, last) && a[last].value.nA == t.seen;
    } else if t0.seen != -1 {
      var k: nat :| ShowsView(fix, a[..last], k) && a[..last][k].value.nA == t0.seen;
      assert ShowsView(fix, a, k);
    }
  }

  lemma RecordsStay(fix: Repairs, a: seq<Option<PrepareReply>>)
    requires a != []
    ensures forall k: nat :: k < |a| - 1 ==> (Record(fix, a, k) <==> Record(fix, a[..|a| - 1], k))
  {
    OneMoreOk(a);
    assert forall k: nat :: k < |a| - 1 ==> a[..|a| - 1][k] == a[k];
  }

  lemma CountTop(fix: Repairs, n: pos, t0: PrepareTally, a: Option<PrepareReply>)
    ensures var t := CountPrepare(fix, n, t0, a);
      if a.Some? && a.value.ok && SaidView(fix, a.value) > t0.top then t.top == SaidView(fix, a.value) && t.va == a.value.vA
      else t.top == t0.top && t.va == t0.va
  {
  }

  lemma TopOneMore(fix: Repairs, n: pos, v: string, a: seq<Option<PrepareReply>>, t0: PrepareTally)
    requires a != [] && TopMeans(fix, v, a[..|a| - 1], t0)
    ensures TopMeans(fix, v, a, CountPrepare(fix, n, t0, a[|a| - 1]))
    ensures OkAt(a, |a| - 1) ==> (Record(fix, a, |a| - 1) <==> SaidView(fix, a[|a| - 1].value) > t0.top)
  {
    var last := |a| - 1;
    var t := CountPrepare(fix, n, t0, a[last]);
    OneMoreOk(a);
    RecordsStay(fix, a);
    CountTop(fix, n, t0, a[last]);
    hide CountPrepare;
    if t0.top >= 0 {
      var k: nat :| Record(fix, a[..last], k) && SaidView(fix, a[..last][k].value) == t0.top && t0.va == a[..last][k].value.vA;
      assert Record(fix, a, k) && OkAt(a, k);
    }
    if t.top != t0.top {
      assert Record(fix, a, last);
    }
  }

  lemma NumbersOneMore(fix: Repairs, n: pos, h: int, a: seq<Option<PrepareReply>>, t0: PrepareTally)
    requires a != [] && NumbersMean(fix, h, a[..|a| - 1], t0.highestN)
    requires OkAt(a, |a| - 1) ==> (Record(fix, a, |a| - 1) <==> SaidView(fix, a[|a| - 1].value) > t0.top)
    ensures NumbersMean(fix, h, a, CountPrepare(fix, n, t0, a[|a| - 1]).highestN)
  {
    var last := |a| - 1;
    var t := CountPrepare(fix, n, t0, a[last]);
    OneMoreOk(a);
    RecordsStay(fix, a);
    if t.highestN != t0.highestN {
      assert OkAt(a, last) && !Record(fix, a, last);
    } else if t0.highestN != h {
      var k: nat :| OkAt(a[..last], k) && !Record(fix, a[..last], k) && a[..last][k].value.highestN == t0.highestN;
      assert OkAt(a, k) && !Record(fix, a, k);
    }
  }

  ghost predicate TallyMeans(fix: Repairs, n: nat, v: string, h: int, a: seq<Option<PrepareReply>>, t: PrepareTally) {
    CountsMean(n, a, t) && SeenMeans(fix, a, t) && TopMeans(fix, v, a, t) && NumbersMean(fix, h, a, t.highestN)
  }

  lemma {:induction false} TallyMeaning(fix: Repairs, n: pos, v: string, h: int, a: seq<Option<PrepareReply>>)
    requires n >= 2 && InProgress(n, a)
    ensures TallyMeans(fix, n, v, h, a, TallyPrepare(fix, n, v, h, a))
  {
    if a == [] {
      assert OksOf(a) == {};
    } else {
      var b := a[..|a| - 1];
      var t0 := TallyPrepare(fix, n, v, h, b);
      Prefix(n, a);
      TallyMeaning(fix, n, v, h, b);
      DecidedWasReported(fix, n, v, h, b);
      CountsOneMore(fix, n, a, t0);
      SeenOneMore(fix, n, a, t0);
      TopOneMore(fix, n, v, a, t0);
      NumbersOneMore(fix, n, h, a, t0);
    }
  }

  lemma TopSettles(fix: Repairs, v: string, a: seq<Option<PrepareReply>>, t: PrepareTally)
    requires TopMeans(fix, v, a, t)
    ensures Settles(fix, a, v, if t.va == "" then v else t.va)
  {
    if t.top >= 0 {
      var k: nat :| Record(fix, a, k) && SaidView(fix, a[k].value) == t.top && t.va == a[k].value.vA;
      assert Best(fix, a, k);
      forall j: nat | Best(fix, a, j)
        ensures j == k
      {
      }
    }
  }

  // ---- Rounds of the cell ----

  lemma {:induction false} RoundsInProgress(c: Cell, states: seq<State>, steps: seq<Step>, k: nat, i: nat, q: int)
    requires c.n >= 2 && Run(c, states, steps) && k < |states|
    requires Preparing(states[k], i, q)
    ensures InProgress(c.n, states[k].proposers[(i, q)].phase.prepares)
  {
    if k == 0 {
    } else {
      var s, t := states[k - 1], steps[k - 1];
      assert Enabled(c, s, t) && states[k] == Apply(c, s, t);
      hide Enabled, Apply;
      if Preparing(s, i, q) {
        RoundsInProgress(c, states, steps, k - 1, i, q);
      }
      StaysInProgress(c, s, t, i, q);
    }
  }

  lemma StaysInProgress(c: Cell, s: State, t: Step, i: nat, q: int)
    requires c.n >= 2 && Enabled(c, s, t)
    requires Preparing(s, i, q) ==> InProgress(c.n, s.proposers[(i, q)].phase.prepares)
    ensures var s' := Apply(c, s, t); Preparing(s', i, q) ==> InProgress(c.n, s'.proposers[(i, q)].phase.prepares)
  {
    var s' := Apply(c, s, t);
    AnswersGrow(c, s, t, i, q);
    if t.AnswerPrepare? && t.i == i && t.q == q {
      AskedOnlyInProgress(c, s, i, q, t.prepareAnswer);
    }
    hide Apply, Enabled;
  }

  ghost predicate Preparing(s: State, i: nat, q: int) {
    (i, q) in s.proposers && s.proposers[(i, q)].phase.Preparing?
  }

  /** A round starts with no answers, and gets them one by one. */
  lemma AnswersGrow(c: Cell, s: State, t: Step, i: nat, q: int)
    requires Enabled(c, s, t)
    ensures var s' := Apply(c, s, t);
      Preparing(s', i, q) ==>
        || s'.proposers[(i, q)].phase.prepares == []
        || (Preparing(s, i, q)
            && (s'.proposers[(i, q)] == s.proposers[(i, q)]
                || (t.AnswerPrepare? && t.i == i && t.q == q
                    && s'.proposers[(i, q)].phase.prepares == s.proposers[(i, q)].phase.prepares + [t.prepareAnswer])))
  {
  }

  lemma AskedOnlyInProgress(c: Cell, s: State, i: nat, q: int, answer: Option<PrepareReply>)
    requires c.n >= 2 && i < |s.servers| && CanAnswerPrepare(c, s, i, q, answer)
    requires InProgress(c.n, s.proposers[(i, q)].phase.prepares)
    ensures InProgress(c.n, s.proposers[(i, q)].phase.prepares + [answer])
  {
    var p := s.proposers[(i, q)];
    var a := p.phase.prepares;
    TallyMeaning(c.fix, c.n, p.v, s.servers[i].slots[q].highestN, a);
    forall m | 0 <= m < |a + [answer]|
      ensures !Enough(c.n, (a + [answer])[..m])
    {
      if m < |a| {
        assert (a + [answer])[..m] == a[..m];
      } else {
        assert (a + [answer])[..m] == a;
      }
    }
  }

  /** A round ends exactly when everybody was asked or there are enough answers. */
  lemma RoundEndsExactlyWhen(c: Cell, s: State, i: nat, q: int)
    requires c.n >= 2 && i < |s.servers| && InPrepare(s, i, q)
    requires InProgress(c.n, s.proposers[(i, q)].phase.prepares)
    ensures CanFinishPrepare(c, s, i, q) <==>
            var a := s.proposers[(i, q)].phase.prepares; |a| == c.n || Enough(c.n, a)
  {
    var p := s.proposers[(i, q)];
    TallyMeaning(c.fix, c.n, p.v, s.servers[i].slots[q].highestN, p.phase.prepares);
  }

  /** The four ways a finished round can go on. */
  datatype Outcome = StepDown | Teach(x: string) | GiveUp | Suggest(x: string)

  ghost predicate Outranked(fix: Repairs, a: seq<Option<PrepareReply>>, view: nat) {
    exists k: nat :: ShowsView(fix, a, k) && a[k].value.nA > view
  }

  ghost predicate OutcomeIs(c: Cell, p: Proposer, a: seq<Option<PrepareReply>>, o: Outcome) {
    match o
    case StepDown => Outranked(c.fix, a, p.view)
    case Teach(x) => !Outranked(c.fix, a, p.view) && exists k: nat :: ReportsDecision(a, k) && x == a[k].value.value
    case GiveUp =>
      && !Outranked(c.fix, a, p.view) && (forall k: nat :: !ReportsDecision(a, k))
      && c.fix.needMajority && |OksOf(a)| <= c.n / 2
    case Suggest(x) =>
      && !Outranked(c.fix, a, p.view) && (forall k: nat :: !ReportsDecision(a, k))
      && (c.fix.needMajority ==> |OksOf(a)| > c.n / 2) && Settles(c.fix, a, p.v, x)
  }

  /** Only `highest_N` of its slot moves, and, stepping down, its view: to the highest one that an answer shows. */
  ghost predicate ServerAfter(c: Cell, r: Server, r': Server, q: int, a: seq<Option<PrepareReply>>, o: Outcome)
    requires q in r.slots
  {
    && q in r'.slots && r'.slots == r.slots[q := r.slots[q].(highestN := r'.slots[q].highestN)]
    && NumbersMean(c.fix, r.slots[q].highestN, a, r'.slots[q].highestN)
    && r' == r.(slots := r'.slots, view := r'.view, leaderDead := r'.leaderDead, missedHeartbeats := r'.missedHeartbeats,
                proposed := r'.proposed)
    && if o.StepDown? then
         && (forall k: nat :: ShowsView(c.fix, a, k) ==> a[k].value.nA <= r'.view)
         && r.view <= r'.view
         && (r'.view != r.view ==> !r'.leaderDead && exists k: nat :: ShowsView(c.fix, a, k) && a[k].value.nA == r'.view)
       else r'.view == r.view && r'.leaderDead == r.leaderDead && r'.missedHeartbeats == r.missedHeartbeats
  }

  /** What the proposer is left with, and the one message it sends. */
  ghost predicate GoesOn(c: Cell, s: State, s': State, i: nat, q: int, p: Proposer, o: Outcome)
    requires i < |s.servers|
  {
    var r := s.servers[i];
    match o
    case StepDown => s'.net == s.net + {Redirect(i, q, p.v)} && s'.proposers == s.proposers - {(i, q)}
    case Teach(x) =>
      && s'.net == s.net + {LearnReq(q, x)}
      && s'.proposers == s.proposers[(i, q) := p.(phase := Learning(x))]
    case GiveUp => s'.net == s.net && s'.proposers == s.proposers - {(i, q)}
    case Suggest(x) =>
      // a leader that keeps its proposal repeats the one it remembers for this view and slot
      var y := if c.fix.keepProposal && (p.view, q) in r.proposed then r.proposed[(p.view, q)] else x;
      && s'.net == s.net + {AcceptReq(q, p.view, y)}
      && s'.proposers == s.proposers[(i, q) := p.(phase := Accepting(y, []))]
  }

  /** What comes of a finished Prepare round. In particular, if nobody outranks the proposer, nobody reports a decision and
      there are enough promises where the repair asks for them, it proposes the value of the first OK answer that says the
      highest view, and its own value exactly when that one is blank or there is none. */
  lemma RoundOutcome(c: Cell, states: seq<State>, steps: seq<Step>, k: nat) returns (o: Outcome)
    requires c.n >= 2 && Run(c, states, steps) && k < |steps| && steps[k].FinishPrepare?
    ensures var s, s', t := states[k], states[k + 1], steps[k];
      && t.i < |s.servers| == |s'.servers| && InPrepare(s, t.i, t.q)
      && var p := s.proposers[(t.i, t.q)];
      && (|p.phase.prepares| == c.n || Enough(c.n, p.phase.prepares))
      && OutcomeIs(c, p, p.phase.prepares, o)
      && ServerAfter(c, s.servers[t.i], s'.servers[t.i], t.q, p.phase.prepares, o)
      && GoesOn(c, s, s', t.i, t.q, p, o)
  {
    var s, s', t := states[k], states[k + 1], steps[k];
    assert Enabled(c, s, t) && s' == Apply(c, s, t);
    RunBasic(c, states, steps, k);
    RoundsInProgress(c, states, steps, k, t.i, t.q);
    RoundEndsExactlyWhen(c, s, t.i, t.q);
    o := StepOutcome(c, s, t.i, t.q);
  }

  lemma StepOutcome(c: Cell, s: State, i: nat, q: int) returns (o: Outcome)
    requires c.n >= 2 && |s.servers| == c.n && i < c.n && s.servers[i].me == i && CanFinishPrepare(c, s, i, q)
    requires InProgress(c.n, s.proposers[(i, q)].phase.prepares)
    ensures var s', p := Apply(c, s, FinishPrepare(i, q)), s.proposers[(i, q)];
      && OutcomeIs(c, p, p.phase.prepares, o)
      && |s'.servers| == c.n && ServerAfter(c, s.servers[i], s'.servers[i], q, p.phase.prepares, o)
      && GoesOn(c, s, s', i, q, p, o)
  {
    var p := s.proposers[(i, q)];
    var a, r := p.phase.prepares, s.servers[i];
    var t := TallyOf(c, r, q, p);
    TallyMeaning(c.fix, c.n, p.v, r.slots[q].highestN, a);
    TopSettles(c.fix, p.v, a, t);
    o := FromTally(c, p, t);
    TallyGivesOutcome(c, p, a, t);
    TallyGivesServer(c, r, q, p, t);
    TallyGivesMessage(c, s, i, q, p, t);
    assert Apply(c, s, FinishPrepare(i, q)).servers[i] == FinishPrepareEffect(c, r, q, p).server;
    hide *;
  }

  function FromTally(c: Cell, p: Proposer, t: PrepareTally): Outcome {
    if t.seen > p.view then StepDown
    else if t.decided.Some? then Teach(t.decided.value)
    else if c.fix.needMajority && t.majority <= c.n / 2 then GiveUp
    else Suggest(if t.va == "" then p.v else t.va)
  }

  lemma TallyGivesServer(c: Cell, r: Server, q: int, p: Proposer, t: PrepareTally)
    requires q in r.slots && p.phase.Preparing? && t == TallyOf(c, r, q, p)
    requires SeenMeans(c.fix, p.phase.prepares, t) && NumbersMean(c.fix, r.slots[q].highestN, p.phase.prepares, t.highestN)
    ensures ServerAfter(c, r, FinishPrepareEffect(c, r, q, p).server, q, p.phase.prepares, FromTally(c, p, t))
  {
    hide TallyPrepare;
  }

  lemma TallyGivesMessage(c: Cell, s: State, i: nat, q: int, p: Proposer, t: PrepareTally)
    requires |s.servers| == c.n && i < c.n && s.servers[i].me == i && CanFinishPrepare(c, s, i, q)
    requires p == s.proposers[(i, q)] && t == TallyOf(c, s.servers[i], q, p)
    ensures GoesOn(c, s, Apply(c, s, FinishPrepare(i, q)), i, q, p, FromTally(c, p, t))
  {
    hide TallyPrepare;
  }

  lemma TallyGivesOutcome(c: Cell, p: Proposer, a: seq<Option<PrepareReply>>, t: PrepareTally)
    requires CountsMean(c.n, a, t) && SeenMeans(c.fix, a, t)
    requires Settles(c.fix, a, p.v, if t.va == "" then p.v else t.va)
    ensures OutcomeIs(c, p, a, FromTally(c, p, t))
  {
    if t.decided.Some? {
      assert ReportsDecision(a, |a| - 1);
    }
  }
}
