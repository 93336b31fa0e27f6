/** Heartbeats copy decided slots both ways: once every peer was heard from and told again, every server holds every
    decision, whatever else the cell did meanwhile. */
module Convergence {
  import opened PaxosTypes
  import opened Handlers
  import opened Decisions
  import opened Extension
  import opened Cluster
  import opened Progress
  import opened Basics
  import opened Replicas

  /** Every decision of the servers. */
  ghost function Union(servers: seq<Server>): map<int, string> {
    if servers == [] then map[] else Union(servers[..|servers| - 1]) + servers[|servers| - 1].Decided()
  }

  lemma {:induction false} FromUnion(servers: seq<Server>, q: int) returns (j: nat)
    requires q in Union(servers)
    ensures j < |servers| && q in servers[j].Decided() && servers[j].Decided()[q] == Union(servers)[q]
  {
    j := |servers| - 1;
    if q in servers[j].Decided() {
    } else {
      j := FromUnion(servers[..j], q);
    }
  }

  ghost predicate Within(a: map<int, string>, u: map<int, string>) {
    forall q :: q in a ==> q in u && u[q] == a[q]
  }

  ghost predicate Covers(a: map<int, string>, b: map<int, string>) {
    forall q :: q in a ==> q in b
  }

  lemma WithinBothWays(a: map<int, string>, u: map<int, string>)
    requires Within(a, u) && Within(u, a)
    ensures a == u
  {
    if a != u {
      var q := SomeDifference(a, u);
    }
  }

  /** Between two points of a run nothing is decided anywhere beyond `u`. */
  ghost predicate NothingNew(states: seq<State>, start: nat, end: nat, u: map<int, string>) {
    forall m, j :: start <= m <= end && m < |states| && 0 <= j < |states[m].servers| ==>
      Within(states[m].servers[j].Decided(), u)
  }

  /** The request that the leader sends to `j` in step `a` is executed there in step `d`, in a view not above its own. */
  ghost predicate Heard(c: Cell, states: seq<State>, steps: seq<Step>, lead: nat, j: nat, a: nat, d: nat) {
    && a < d < |steps| < |states| && steps[a] == SendHeartbeat(lead, j)
    && lead < |states[a].servers| && j < |states[d].servers|
    && steps[d].DeliverHeartbeat? && steps[d].i == j && Owner(steps[d].view, c.n) == lead
    && states[d].servers[j].view <= steps[d].view && steps[d].decided == states[a].servers[lead].Decided()
  }

  /** And its answer reaches the leader in step `b`. */
  ghost predicate Answered(states: seq<State>, steps: seq<Step>, lead: nat, j: nat, a: nat, d: nat, b: nat) {
    && a < d < b < |steps| < |states|
    && lead < |states[a].servers| && j < |states[d].servers|
    && steps[b] == AnswerHeartbeat(lead, states[d].servers[j].Decided() - states[a].servers[lead].Decided().Keys)
  }

  lemma KeepsDecided(c: Cell, states: seq<State>, steps: seq<Step>, m: nat, k: nat, j: nat)
    requires Run(c, states, steps) && m <= k < |states| && j < c.n
    ensures |states[m].servers| == |states[k].servers| == c.n && states[m].servers[j].me == j
    ensures Within(states[m].servers[j].Decided(), states[k].servers[j].Decided())
  {
    hide Enabled, Apply;
    OnlyForward(c, states, steps, m, k);
    RunBasic(c, states, steps, m);
    DecisionsStay(states[m].servers[j], states[k].servers[j]);
  }

  /** What the leader sent, the peer has. */
  lemma PeerGets(c: Cell, states: seq<State>, steps: seq<Step>, lead: nat, j: nat, a: nat, d: nat)
    requires Run(c, states, steps) && lead < c.n && j < c.n && j != lead && Heard(c, states, steps, lead, j, a, d)
    ensures |states[a].servers| == |states[d + 1].servers| == c.n
    ensures Covers(states[a].servers[lead].Decided(), states[d + 1].servers[j].Decided())
  {
    KeepsDecided(c, states, steps, a, d, lead);
    KeepsDecided(c, states, steps, d, d + 1, j);
    var r, t := states[d].servers[j], steps[d];
    assert Enabled(c, states[d], t) && states[d + 1] == Apply(c, states[d], t);
    assert states[d + 1].servers[j] == Heartbeat(r, lead, t.view, t.done, t.decided).0;
    BatchDecides(Adopt(r, t.view).(done := t.done, missedHeartbeats := 0), t.decided);
  }

  /** What the peer had, the leader has once the answer is in. */
  lemma LeaderGets(
    c: Cell, states: seq<State>, steps: seq<Step>, lead: nat, j: nat, a: nat, d: nat, b: nat)
    requires Run(c, states, steps) && lead < c.n && j < c.n && Answered(states, steps, lead, j, a, d, b)
    ensures |states[d].servers| == |states[b + 1].servers| == c.n
    ensures Covers(states[d].servers[j].Decided(), states[b + 1].servers[lead].Decided())
  {
    KeepsDecided(c, states, steps, a, b, lead);
    KeepsDecided(c, states, steps, d, b, j);
    KeepsDecided(c, states, steps, b, b + 1, lead);
    var sent, had := states[a].servers[lead].Decided(), states[d].servers[j].Decided();
    var r, t := states[b].servers[lead], steps[b];
    assert Enabled(c, states[b], t) && states[b + 1] == Apply(c, states[b], t);
    assert states[b + 1].servers[lead] == DecideAll(r, had - sent.Keys);
    BatchDecides(r, had - sent.Keys);
    Covered(had, sent, r.Decided());
  }

  lemma Covered(had: map<int, string>, sent: map<int, string>, known: map<int, string>)
    requires Within(sent, known)
    ensures Covers(had, (had - sent.Keys) + known)
  {
  }

  lemma AnsweredInOrder(states: seq<State>, steps: seq<Step>, lead: nat, j: nat, a: nat, d: nat, b: nat)
    requires Answered(states, steps, lead, j, a, d, b)
    ensures a < d < b < |steps| < |states|
  {
  }

  /** The first exchange with every peer, between `start` and `mid`, gives the leader the union. */
  lemma LeaderKnowsAll(c: Cell, states: seq<State>, steps: seq<Step>, start: nat, mid: nat, lead: nat,
                       a: seq<nat>, d: seq<nat>, b: seq<nat>)
    requires Run(c, states, steps) && start <= mid < |states| && lead < c.n == |a| == |d| == |b|
    requires NothingNew(states, start, mid, Union(states[start].servers))
    requires forall j :: 0 <= j < c.n && j != lead ==>
               start <= a[j] && b[j] < mid && Answered(states, steps, lead, j, a[j], d[j], b[j])
    ensures |states[mid].servers| == c.n
    ensures states[mid].servers[lead].Decided() == Union(states[start].servers)
  {
    hide Enabled, Apply, Init, Answered;
    var u := Union(states[start].servers);
    KeepsDecided(c, states, steps, start, mid, lead);
    var final := states[mid].servers[lead].Decided();
    forall q | q in u
      ensures q in final
    {
      var j := FromUnion(states[start].servers, q);
      if j != lead {
        AnsweredInOrder(states, steps, lead, j, a[j], d[j], b[j]);
        KeepsDecided(c, states, steps, start, d[j], j);
        LeaderGets(c, states, steps, lead, j, a[j], d[j], b[j]);
        KeepsDecided(c, states, steps, b[j] + 1, mid, lead);
      }
    }
    hide Run;
    assert Within(final, u);
    WithinBothWays(final, u);
  }

  /** As long as nothing new is decided, every server holds the union of all that was decided at the start once each
      peer has answered one heartbeat and then executed another, sent after all those answers. Steps of any other kind,
      lost messages included, may come in between. */
  lemma TwoRoundsConverge(
    c: Cell, states: seq<State>, steps: seq<Step>, start: nat, mid: nat, end: nat, lead: nat,
    a: seq<nat>, d: seq<nat>, b: seq<nat>, a': seq<nat>, d': seq<nat>)
    requires Run(c, states, steps) && start <= mid <= end < |states|
    requires lead < c.n == |a| == |d| == |b| == |a'| == |d'|
    requires NothingNew(states, start, end, Union(states[start].servers))
    requires forall j :: 0 <= j < c.n && j != lead ==>
               start <= a[j] && b[j] < mid && Answered(states, steps, lead, j, a[j], d[j], b[j])
    requires forall j :: 0 <= j < c.n && j != lead ==>
               mid <= a'[j] && d'[j] < end && Heard(c, states, steps, lead, j, a'[j], d'[j])
    ensures |states[end].servers| == c.n
    ensures forall j :: 0 <= j < c.n ==> states[end].servers[j].Decided() == Union(states[start].servers)
  {
    hide Enabled, Apply, Init;
    var u := Union(states[start].servers);
    LeaderKnowsAll(c, states, steps, start, mid, lead, a, d, b);
    KeepsDecided(c, states, steps, mid, end, lead);
    forall j | 0 <= j < c.n
      ensures states[end].servers[j].Decided() == u
    {
      if j == lead {
        assert Within(u, states[end].servers[lead].Decided());
      } else {
        PeerKnowsAll(c, states, steps, mid, end, lead, j, a'[j], d'[j], u);
      }
      hide Run, Heard, Answered;
      WithinBothWays(states[end].servers[j].Decided(), u);
    }
  }

  lemma PeerKnowsAll(c: Cell, states: seq<State>, steps: seq<Step>, mid: nat, end: nat, lead: nat, j: nat,
                     a: nat, d: nat, u: map<int, string>)
    requires Run(c, states, steps) && mid <= a && a < d < end < |states| && lead < c.n && j < c.n && j != lead
    requires |states[mid].servers| == c.n && states[mid].servers[lead].Decided() == u
    requires Heard(c, states, steps, lead, j, a, d)
    requires |states[end].servers| == c.n && Within(states[end].servers[j].Decided(), u)
    ensures Within(u, states[end].servers[j].Decided())
  {
    hide Enabled, Apply, Init;
    KeepsDecided(c, states, steps, mid, a, lead);
    PeerGets(c, states, steps, lead, j, a, d);
    KeepsDecided(c, states, steps, d + 1, end, j);
    var sent, got, final := states[a].servers[lead].Decided(), states[d + 1].servers[j].Decided(),
      states[end].servers[j].Decided();
    hide Run, Heard;
    AllArrive(u, sent, got, final);
  }

  lemma AllArrive(u: map<int, string>, sent: map<int, string>, got: map<int, string>, final: map<int, string>)
    requires Within(u, sent) && Covers(sent, got) && Within(got, final) && Within(final, u)
    ensures Within(u, final)
  {
    forall q | q in u
      ensures q in final && final[q] == u[q]
    {
      assert q in sent;
      assert q in got;
    }
  }
}
