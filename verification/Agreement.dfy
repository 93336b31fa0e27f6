/** With the four repairs no two servers ever decide differently. */
module Agreement {
  import opened PaxosTypes
  import opened Handlers
  import opened Tallies
  import opened Quorums
  import opened Cluster
  import opened Progress
  import opened Basics
  import opened Views
  import opened Leadership
  import opened Runs
  import opened Validity

  // ---- What may still be chosen ----

  /** `j` accepted `y` for slot `q` in view `w`, or may still do so. */
  ghost predicate CouldVote(s: State, j: nat, q: int, w: nat, y: string) {
    j < |s.servers| && (Voted(j, q, w, y) in s.log || s.servers[j].view <= w)
  }

  ghost predicate Choosable(c: Cell, s: State, q: int, w: nat, y: string, voters: set<nat>) {
    Quorum(c.n, voters) && forall j :: j in voters ==> CouldVote(s, j, q, w, y)
  }

  /** No value but `x` was or can be chosen for slot `q` below view `v`. */
  ghost predicate SafeAt(c: Cell, s: State, q: int, v: nat, x: string) {
    forall w: nat, y, voters :: w < v && Choosable(c, s, q, w, y, voters) ==> y == x
  }

  ghost predicate ChosenBy(c: Cell, s: State, q: int, w: nat, x: string, voters: set<nat>) {
    Quorum(c.n, voters) && forall j :: j in voters ==> Voted(j, q, w, x) in s.log
  }

  ghost predicate Chosen(c: Cell, s: State, q: int, x: string) {
    exists w, voters :: ChosenBy(c, s, q, w, x, voters)
  }

  // ---- Invariants ----

  /** An OK answer to Prepare in view `w`: the promise, and everything the server accepted for the slot below `w`. */
  ghost predicate PromiseOk(s: State, q: int, w: nat, j: nat, r: PrepareReply) {
    && j < |s.servers| && w <= s.servers[j].view && r.acceptedView <= r.nA
    && (r.acceptedView >= 0 ==> Voted(j, q, r.acceptedView, r.vA) in s.log)
    && forall u: nat, y :: Voted(j, q, u, y) in s.log && u < w ==> u <= r.acceptedView
  }

  ghost predicate ProposedIs(c: Cell, s: State, q: int, v: nat, x: string) {
    var i := Owner(v, c.n);
    i < |s.servers| && (v, q) in s.servers[i].proposed && s.servers[i].proposed[(v, q)] == x
  }

  ghost predicate BatchChosen(c: Cell, s: State, decided: map<int, string>) {
    forall q :: q in decided ==> Chosen(c, s, q, decided[q])
  }

  ghost predicate MessageAgrees(c: Cell, s: State, m: Message) {
    match m
    case AcceptReq(q, v, x) => ProposedIs(c, s, q, v, x) && SafeAt(c, s, q, v, x)
    case PrepareAns(q, _, w, j, r) =>
      (r.ok ==> PromiseOk(s, q, w, j, r)) && (r.value != "" ==> Chosen(c, s, q, r.value))
    case LearnReq(q, x) => Chosen(c, s, q, x)
    case HeartbeatReq(_, _, decided) => BatchChosen(c, s, decided)
    case HeartbeatAns(_, decided) => BatchChosen(c, s, decided)
    case _ => true
  }

  ghost predicate SlotAgrees(c: Cell, s: State, j: nat, q: int, slot: Slot) {
    && (slot.status == DECIDED ==> Chosen(c, s, q, slot.value))
    && (slot.acceptedView >= 0 ==> Voted(j, q, slot.acceptedView, slot.vA) in s.log)
  }

  ghost predicate ServerAgrees(c: Cell, s: State, j: nat, r: Server) {
    && (forall q :: q in r.slots ==> SlotAgrees(c, s, j, q, r.slots[q]))
    && forall v, q :: (v, q) in r.proposed ==> AcceptReq(q, v, r.proposed[(v, q)]) in s.net
  }

  ghost predicate VoteAgrees(s: State, e: Event) {
    e.Voted? ==>
      && AcceptReq(e.q, e.view, e.v) in s.net
      && e.server < |s.servers| && e.q in s.servers[e.server].slots
      && e.view <= s.servers[e.server].slots[e.q].acceptedView
  }

  ghost predicate Agrees(c: Cell, s: State) {
    && (forall j :: 0 <= j < |s.servers| ==> ServerAgrees(c, s, j, s.servers[j]))
    && (forall m :: m in s.net ==> MessageAgrees(c, s, m))
    && forall e :: e in s.log ==> VoteAgrees(s, e)
  }

  // ---- Stability ----

  lemma ChoosableBefore(c: Cell, s: State, s': State, q: int, w: nat, y: string, voters: set<nat>)
    requires |s.servers| == c.n && Forward(s, s') && Choosable(c, s', q, w, y, voters)
    ensures Choosable(c, s, q, w, y, voters)
  {
    forall j | j in voters
      ensures CouldVote(s, j, q, w, y)
    {
      assert CouldVote(s', j, q, w, y);
      assert ServerForward(s.servers[j], s'.servers[j]);
    }
  }

  lemma SafeStays(c: Cell, s: State, s': State, q: int, v: nat, x: string)
    requires |s.servers| == c.n && Forward(s, s') && SafeAt(c, s, q, v, x)
    ensures SafeAt(c, s', q, v, x)
  {
    forall w: nat, y, voters | w < v && Choosable(c, s', q, w, y, voters)
      ensures y == x
    {
      ChoosableBefore(c, s, s', q, w, y, voters);
    }
  }

  lemma ChosenStays(c: Cell, s: State, s': State, q: int, x: string)
    requires s.log <= s'.log && Chosen(c, s, q, x)
    ensures Chosen(c, s', q, x)
  {
    var w, voters :| ChosenBy(c, s, q, w, x, voters);
    assert ChosenBy(c, s', q, w, x, voters);
  }

  lemma PromiseStays(c: Cell, s: State, s': State, q: int, w: nat, j: nat, r: PrepareReply)
    requires |s.servers| == c.n && Forward(s, s') && PromiseOk(s, q, w, j, r)
    ensures PromiseOk(s', q, w, j, r)
  {
    assert ServerForward(s.servers[j], s'.servers[j]);
  }

  /** Nothing a leader proposed is forgotten. */
  ghost predicate KeepsProposals(a: Server, b: Server) {
    forall k :: k in a.proposed ==> k in b.proposed && b.proposed[k] == a.proposed[k]
  }

  lemma MessageStaysAgreed(c: Cell, s: State, s': State, m: Message)
    requires |s.servers| == c.n && Forward(s, s') && MessageAgrees(c, s, m)
    requires forall j :: 0 <= j < |s.servers| ==> KeepsProposals(s.servers[j], s'.servers[j])
    ensures MessageAgrees(c, s', m)
  {
    match m {
      case AcceptReq(q, v, x) =>
        SafeStays(c, s, s', q, v, x);
        assert KeepsProposals(s.servers[Owner(v, c.n)], s'.servers[Owner(v, c.n)]);
      case PrepareAns(q, _, w, j, r) =>
        if r.ok {
          PromiseStays(c, s, s', q, w, j, r);
        }
        if r.value != "" {
          ChosenStays(c, s, s', q, r.value);
        }
      case LearnReq(q, x) => ChosenStays(c, s, s', q, x);
      case HeartbeatReq(_, _, decided) => BatchStays(c, s, s', decided);
      case HeartbeatAns(_, decided) => BatchStays(c, s, s', decided);
      case _ =>
    }
  }

  lemma BatchStays(c: Cell, s: State, s': State, decided: map<int, string>)
    requires s.log <= s'.log && BatchChosen(c, s, decided)
    ensures BatchChosen(c, s', decided)
  {
    forall q | q in decided
      ensures Chosen(c, s', q, decided[q])
    {
      ChosenStays(c, s, s', q, decided[q]);
    }
  }

  lemma ServerStaysAgreed(c: Cell, s: State, s': State, j: nat, r: Server)
    requires s.log <= s'.log && s.net <= s'.net && ServerAgrees(c, s, j, r)
    ensures ServerAgrees(c, s', j, r)
  {
    forall q | q in r.slots
      ensures SlotAgrees(c, s', j, q, r.slots[q])
    {
      assert SlotAgrees(c, s, j, q, r.slots[q]);
      if r.slots[q].status == DECIDED {
        ChosenStays(c, s, s', q, r.slots[q].value);
      }
    }
  }

  /** What a step must establish in the state it leads to. */
  ghost predicate EffectAgrees(c: Cell, s: State, i: nat, q: int, e: Effect)
    requires i < |s.servers|
  {
    var s' := Commit(s, i, q, e);
    && KeepsProposals(s.servers[i], e.server)
    && ServerAgrees(c, s', i, e.server)
    && (forall m :: m in e.sent ==> MessageAgrees(c, s', m))
    && forall ev :: ev in e.events ==> VoteAgrees(s', ev)
  }

  lemma CommitAgrees(c: Cell, s: State, i: nat, q: int, e: Effect)
    requires |s.servers| == c.n && i < c.n && Agrees(c, s) && Forward(s, Commit(s, i, q, e))
    requires EffectAgrees(c, s, i, q, e)
    ensures Agrees(c, Commit(s, i, q, e))
  {
    var s' := Commit(s, i, q, e);
    forall j | 0 <= j < c.n
      ensures KeepsProposals(s.servers[j], s'.servers[j]) && ServerAgrees(c, s', j, s'.servers[j])
    {
      if j != i {
        ServerStaysAgreed(c, s, s', j, s.servers[j]);
      }
    }
    forall m | m in s'.net
      ensures MessageAgrees(c, s', m)
    {
      if m in s.net {
        MessageStaysAgreed(c, s, s', m);
      }
    }
    forall ev | ev in s'.log
      ensures VoteAgrees(s', ev)
    {
      if ev in s.log {
        VoteStays(c, s, s', ev);
      }
    }
  }

  lemma VoteStays(c: Cell, s: State, s': State, ev: Event)
    requires Forward(s, s') && VoteAgrees(s, ev)
    ensures VoteAgrees(s', ev)
  {
    if ev.Voted? {
      assert ServerForward(s.servers[ev.server], s'.servers[ev.server]);
    }
  }

  // ---- Two chosen values are one ----

  lemma SameViewSameValue(c: Cell, s: State, q: int, w: nat, x: string, y: string)
    requires Agrees(c, s) && AcceptReq(q, w, x) in s.net && AcceptReq(q, w, y) in s.net
    ensures x == y
  {
    assert MessageAgrees(c, s, AcceptReq(q, w, x)) && MessageAgrees(c, s, AcceptReq(q, w, y));
  }

  lemma ChosenOrdered(
    c: Cell, s: State, q: int, w: nat, x: string, a: set<nat>, u: nat, y: string, b: set<nat>)
    requires |s.servers| == c.n && Agrees(c, s) && w <= u
    requires ChosenBy(c, s, q, w, x, a) && ChosenBy(c, s, q, u, y, b)
    ensures x == y
  {
    var j := Intersect(c.n, a, b);
    assert VoteAgrees(s, Voted(j, q, w, x)) && VoteAgrees(s, Voted(j, q, u, y));
    if w == u {
      SameViewSameValue(c, s, q, w, x, y);
    } else {
      assert MessageAgrees(c, s, AcceptReq(q, u, y));
      assert Choosable(c, s, q, w, x, a);
    }
  }

  lemma ChosenIsUnique(c: Cell, s: State, q: int, x: string, y: string)
    requires |s.servers| == c.n && Agrees(c, s) && Chosen(c, s, q, x) && Chosen(c, s, q, y)
    ensures x == y
  {
    var w, a :| ChosenBy(c, s, q, w, x, a);
    var u, b :| ChosenBy(c, s, q, u, y, b);
    if w <= u {
      ChosenOrdered(c, s, q, w, x, a, u, y, b);
    } else {
      ChosenOrdered(c, s, q, u, y, b, w, x, a);
    }
  }
}
