/** The main results about leaders, over every run in which a server's elections do not overlap (assumption A), of the
    program as written and under any choice of repairs. */
module Runs {
  import opened PaxosTypes
  import opened Handlers
  import opened Tallies
  import opened Quorums
  import opened Cluster
  import opened Progress
  import opened Basics
  import opened Views
  import opened Leadership

  lemma InitOk(c: Cell)
    ensures Inv(c, Init(c))
  {
  }

  lemma {:induction false} RunInv(c: Cell, states: seq<State>, steps: seq<Step>, k: nat)
    requires c.oneElection && Run(c, states, steps) && k < |states|
    ensures Inv(c, states[k])
  {
    hide Inv, Enabled, Apply;
    if k == 0 {
      InitOk(c);
    } else {
      RunInv(c, states, steps, k - 1);
      StepKeeps(c, states[k - 1], steps[k - 1]);
    }
  }

  ghost predicate SameWins(s: State, s': State) {
    forall v :: v in s.wins ==> v in s'.wins && s'.wins[v] == s.wins[v]
  }

  lemma {:induction false} WinsAreKept(c: Cell, states: seq<State>, steps: seq<Step>, j: nat, k: nat)
    requires c.oneElection && Run(c, states, steps) && j <= k < |states|
    ensures SameWins(states[j], states[k])
    decreases k - j
  {
    hide Inv, Enabled, Apply;
    if j == k {
      assert SameWins(states[k], states[k]);
    } else {
      WinsAreKept(c, states, steps, j, k - 1);
      RunInv(c, states, steps, k - 1);
      StepKeeps(c, states[k - 1], steps[k - 1]);
    }
  }

  // ---- Leadership is earned ----

  /** The one way a server comes to be in a view it owns. */
  ghost predicate WinsElection(c: Cell, s: State, t: Step, i: nat, v: nat) {
    && t.FinishElection? && t.i == i && (i, t.x) in s.elections
    && var e := s.elections[(i, t.x)];
    && e.target == v
    && TallyElect(e.answers).rejects == 0 && TallyElect(e.answers).majority + 1 > c.n / 2
  }

  lemma OwnViewOnlyByWinning(c: Cell, s: State, t: Step, i: nat)
    requires c.oneElection && Inv(c, s) && Enabled(c, s, t) && i < c.n
    requires var v := Apply(c, s, t).servers[i].view; v != s.servers[i].view && Owner(v, c.n) == i
    ensures WinsElection(c, s, t, i, Apply(c, s, t).servers[i].view)
  {
    var s' := Apply(c, s, t);
    StepKeeps(c, s, t);
    assert ServerForward(s.servers[i], s'.servers[i]) && Earned(c, s', i);
    var v := s'.servers[i].view;
    assert v in s'.wins;
    assert v in s.wins ==> WinOk(c, s, v);
    NewWin(c, s, t, v);
  }

  lemma NewWin(c: Cell, s: State, t: Step, v: nat)
    requires AllOk(c, s) && Enabled(c, s, t) && v in Apply(c, s, t).wins && v !in s.wins
    ensures WinsElection(c, s, t, t.i, v)
  {
    assert EffectOf(c, s, t).win.Some?;
    assert t.FinishElection?;
  }

  /** In every run, a server leading a view above 0 gathered a majority for it in one round of its own election. */
  lemma {:induction false} LeadershipIsEarned(c: Cell, states: seq<State>, steps: seq<Step>, k: nat, i: nat)
    requires c.oneElection && Run(c, states, steps) && k < |states| && i < c.n
    requires |states[k].servers| == c.n && states[k].servers[i].view != 0 && Owner(states[k].servers[i].view, c.n) == i
    ensures exists m :: 0 <= m < k && WinsElection(c, states[m], steps[m], i, states[k].servers[i].view)
  {
    if k == 0 {
    } else {
      RunInv(c, states, steps, k - 1);
      assert Enabled(c, states[k - 1], steps[k - 1]);
      if states[k - 1].servers[i].view == states[k].servers[i].view {
        LeadershipIsEarned(c, states, steps, k - 1, i);
      } else {
        OwnViewOnlyByWinning(c, states[k - 1], steps[k - 1], i);
      }
    }
  }

  // ---- Stale leaders are fenced ----

  /** Every server of `voters` accepted slot `q` in view `w`. */
  ghost predicate AllVoted(s: State, voters: set<nat>, q: int, w: nat) {
    forall j :: j in voters ==> exists v :: Voted(j, q, w, v) in s.log
  }

  /** All that `j` accepted below view `v` it accepted before its acknowledgement of `v`, at position `a` of history. */
  ghost predicate AcceptedFirst(s: State, j: nat, v: nat, a: nat) {
    && a < |s.log| && s.log[a].Acked? && s.log[a].server == j && s.log[a].view == v
    && forall b :: 0 <= b < |s.log| && s.log[b].Voted? && s.log[b].server == j && s.log[b].view < v ==> b < a
  }

  lemma StaleLeadersAreFenced(
    c: Cell, states: seq<State>, steps: seq<Step>, k: nat, v: nat, voters: set<nat>, q: int, w: nat)
    requires c.oneElection && Run(c, states, steps) && k < |states|
    requires v in states[k].wins && w < v && Quorum(c.n, voters) && AllVoted(states[k], voters, q, w)
    ensures exists j, a :: j in voters && AcceptedFirst(states[k], j, v, a)
  {
    RunInv(c, states, steps, k);
    var j, a := SomeoneAcked(c, states[k], v, voters);
  }

  lemma SomeoneAcked(c: Cell, s: State, v: nat, voters: set<nat>) returns (j: nat, a: nat)
    requires AllOk(c, s) && Ordered(s.log) && v in s.wins && WinOk(c, s, v) && Quorum(c.n, voters)
    ensures j in voters && AcceptedFirst(s, j, v, a)
  {
    var win := s.wins[v];
    j := Intersect(c.n, voters, win.reported.Keys);
    var ack := Acked(j, v, win.reported[j]);
    assert ack in s.log;
    a :| 0 <= a < |s.log| && s.log[a] == ack;
  }

  ghost predicate AcceptsNothingAfter(log: seq<Event>, j: nat, v: nat, m: nat) {
    forall b :: m < b < |log| && log[b].Voted? && log[b].server == j ==> log[b].view >= v
  }

  /** From the moment view `v` is won, every majority contains a server that accepts nothing below `v` any more. */
  lemma NoMajorityAfterwards(
    c: Cell, states: seq<State>, steps: seq<Step>, k: nat, v: nat, m: nat, voters: set<nat>)
    requires c.oneElection && Run(c, states, steps) && k < |states| && Quorum(c.n, voters)
    requires m < |states[k].log| && states[k].log[m] == Won(Owner(v, c.n), v)
    ensures exists j :: j in voters && AcceptsNothingAfter(states[k].log, j, v, m)
  {
    var n := FirstWith(c, states, steps, k, m);
    RunInv(c, states, steps, n);
    OnlyForward(c, states, steps, n, k);
    var s := states[n];
    assert EventOk(c, s, s.log[m]);
    var j, a := SomeoneAcked(c, s, v, voters);
    RunInv(c, states, steps, k);
    AckedThenNothing(states[k].log, j, v, a, m);
  }

  lemma AckedThenNothing(log: seq<Event>, j: nat, v: nat, a: nat, m: nat)
    requires Ordered(log) && a <= m < |log| && log[a].Acked? && log[a].server == j && log[a].view == v
    ensures AcceptsNothingAfter(log, j, v, m)
  {
  }

  /** The first state whose history reaches position `m`: there it is the last event. */
  lemma {:induction false} FirstWith(c: Cell, states: seq<State>, steps: seq<Step>, k: nat, m: nat) returns (n: nat)
    requires Run(c, states, steps) && k < |states| && m < |states[k].log| && states[k].log[m].Won?
    ensures n <= k && |states[n].log| == m + 1 && states[n].log[m] == states[k].log[m]
  {
    OnlyForward(c, states, steps, if k == 0 then 0 else k - 1, k);
    if k == 0 {
    } else {
      assert Enabled(c, states[k - 1], steps[k - 1]);
      if m < |states[k - 1].log| {
        n := FirstWith(c, states, steps, k - 1, m);
      } else {
        n := k;
        WonIsLast(c, states[k - 1], steps[k - 1], m);
      }
    }
  }

  lemma WonIsLast(c: Cell, s: State, t: Step, m: nat)
    requires Enabled(c, s, t) && |s.log| <= m < |Apply(c, s, t).log| && Apply(c, s, t).log[m].Won?
    ensures |Apply(c, s, t).log| == m + 1
  {
    var e := EffectOf(c, s, t);
    assert Apply(c, s, t).log == s.log + e.events;
    assert e.events[m - |s.log|].Won?;
  }

  // ---- Skipping Prepare is safe ----

  /** Every majority contains a server that acknowledged `v` and had not accepted slot `q` below it. */
  lemma SomeoneDidNotVote(c: Cell, s: State, v: nat, q: int, w: nat, voters: set<nat>) returns (j: nat)
    requires AllOk(c, s) && EventsOk(c, s, s.log) && v in s.wins && WinOk(c, s, v)
    requires q > s.wins[v].highest && w < v && Quorum(c.n, voters)
    ensures j in voters && j < c.n && s.servers[j].view >= v && forall x :: Voted(j, q, w, x) !in s.log
  {
    var win := s.wins[v];
    j := Intersect(c.n, voters, win.reported.Keys);
    assert EventOk(c, s, Acked(j, v, win.reported[j]));
  }

  /** If the leader that won `v` has seen nothing accepted at slot `q` or above, then below `v` no majority has accepted
      slot `q`, and none ever will. */
  lemma SkippingPrepareIsSafe(
    c: Cell, states: seq<State>, steps: seq<Step>, j: nat, k: nat, v: nat, q: int, w: nat, voters: set<nat>)
    requires c.oneElection && Run(c, states, steps) && j <= k < |states|
    requires v in states[j].wins && |states[j].servers| == c.n
    requires q > states[j].servers[Owner(v, c.n)].highestAcceptedSeq
    requires w < v && Quorum(c.n, voters)
    ensures !AllVoted(states[k], voters, q, w)
  {
    WinsAreKept(c, states, steps, j, k);
    RunInv(c, states, steps, j);
    assert WinOk(c, states[j], v);
    RunInv(c, states, steps, k);
    var m := SomeoneDidNotVote(c, states[k], v, q, w, voters);
  }
}
