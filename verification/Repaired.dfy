/** Every step of the repaired protocol keeps the invariants of Agreement.dfy. */
module Repaired {
  import opened PaxosTypes
  import opened Handlers
  import opened Tallies
  import opened Quorums
  import opened Cluster
  import opened Progress
  import opened Basics
  import opened Views
  import opened Leadership
  import opened Runs
  import opened Validity
  import opened Agreement

  // ---- Which value may be proposed ----

  /** Below a won view, nothing was or can be chosen at a slot above all that the winner heard of. */
  lemma NothingChoosable(c: Cell, s: State, q: int, v: nat, w: nat, y: string, voters: set<nat>)
    requires AllOk(c, s) && EventsOk(c, s, s.log) && v in s.wins && WinOk(c, s, v)
    requires q > s.servers[Owner(v, c.n)].highestAcceptedSeq && w < v && Quorum(c.n, voters)
    ensures !Choosable(c, s, q, w, y, voters)
  {
    var j := SomeoneDidNotVote(c, s, v, q, w, voters);
    assert !CouldVote(s, j, q, w, y);
  }

  lemma SkipIsSafe(c: Cell, s: State, i: nat, q: int, v: nat, x: string)
    requires AllOk(c, s) && EventsOk(c, s, s.log) && WinsOk(c, s) && i < c.n && Led(c, s, i, v)
    requires q > s.servers[i].highestAcceptedSeq
    ensures SafeAt(c, s, q, v, x)
  {
    assert v > 0 ==> WinOk(c, s, v);
    forall w: nat, y, voters | w < v && Quorum(c.n, voters)
      ensures !Choosable(c, s, q, w, y, voters)
    {
      NothingChoosable(c, s, q, v, w, y, voters);
    }
  }

  function PrepareOks(answers: seq<Option<PrepareReply>>): set<nat> {
    set k: nat | k < |answers| && answers[k].Some? && answers[k].value.ok
  }

  ghost predicate TopReported(a: seq<Option<PrepareReply>>, oks: set<nat>, top: int, va: string) {
    exists k :: k in oks && k < |a| && a[k].Some? && a[k].value.acceptedView == top && a[k].value.vA == va
  }

  lemma TopStaysReported(a: seq<Option<PrepareReply>>, b: seq<Option<PrepareReply>>, oks: set<nat>, more: set<nat>, top: int, va: string)
    requires TopReported(a, oks, top, va) && a <= b && oks <= more
    ensures TopReported(b, more, top, va)
  {
    var k :| k in oks && k < |a| && a[k].Some? && a[k].value.acceptedView == top && a[k].value.vA == va;
    assert b[k] == a[k];
  }

  /** What a finished Prepare round knows: `oks` are the OK answers it counted. */
  ghost predicate RoundMeans(v: string, a: seq<Option<PrepareReply>>, t: PrepareTally, oks: set<nat>) {
    && oks <= PrepareOks(a) && |oks| == t.majority
    && (forall k :: k in oks ==> a[k].value.acceptedView <= t.top && a[k].value.nA <= t.seen)
    && (t.top == -1 || TopReported(a, oks, t.top, t.va))
    && t.top >= -1 && (t.top == -1 ==> t.va == v)
  }

  lemma {:induction false} RoundMeaning(fix: Repairs, n: pos, v: string, h: int, a: seq<Option<PrepareReply>>)
    returns (oks: set<nat>)
    requires fix.rankByAcceptedView
    ensures RoundMeans(v, a, TallyPrepare(fix, n, v, h, a), oks)
  {
    oks := {};
    if a == [] {
    } else {
      var last := |a| - 1;
      oks := RoundMeaning(fix, n, v, h, a[..last]);
      var t0 := TallyPrepare(fix, n, v, h, a[..last]);
      assert forall k :: 0 <= k < last ==> a[..last][k] == a[k];
      if !t0.stop && a[last].Some? && a[last].value.ok {
        OneMoreAnswer(fix, n, v, a, t0, oks);
        oks := oks + {last};
      } else {
        assert RoundMeans(v, a, TallyPrepare(fix, n, v, h, a), oks);
      }
    }
  }

  lemma OneMoreAnswer(fix: Repairs, n: pos, v: string, a: seq<Option<PrepareReply>>, t0: PrepareTally, oks: set<nat>)
    requires fix.rankByAcceptedView
    requires a != [] && a[|a| - 1].Some? && a[|a| - 1].value.ok
    requires RoundMeans(v, a[..|a| - 1], t0, oks)
    ensures RoundMeans(v, a, CountPrepareOk(fix, n, t0, a[|a| - 1].value), oks + {|a| - 1})
  {
    var last := |a| - 1;
    var r := a[last].value;
    var t := CountPrepareOk(fix, n, t0, r);
    var b := a[..last];
    assert last !in oks && |oks + {last}| == |oks| + 1;
    assert forall k :: k in oks ==> b[k] == a[k];
    if r.acceptedView > t0.top {
      assert last in oks + {last};
      assert TopReported(a, oks + {last}, t.top, t.va);
    } else if t0.top != -1 {
      TopStaysReported(b, a, oks, oks + {last}, t0.top, t0.va);
    }
  }

  /** Proposing what a majority of promises reported: nothing else was or can be chosen below. */
  lemma RoundIsSafe(c: Cell, s: State, q: int, prop: int, v: nat, a: seq<Option<PrepareReply>>, t: PrepareTally,
                    oks: set<nat>, v0: string, x: string)
    requires c.n >= 2 && AllOk(c, s) && Agrees(c, s)
    requires |a| <= c.n && RoundMeans(v0, a, t, oks) && t.majority > c.n / 2 && t.seen <= v
    requires forall k :: 0 <= k < |a| && a[k].Some? ==> PrepareAns(q, prop, v, k, a[k].value) in s.net
    requires !exists y :: AcceptReq(q, v, y) in s.net
    requires t.top == -1 || x == t.va
    ensures SafeAt(c, s, q, v, x)
  {
    assert Quorum(c.n, oks);
    forall w: nat, y, voters | w < v && Choosable(c, s, q, w, y, voters)
      ensures y == x
    {
      var j := Intersect(c.n, voters, oks);
      assert CouldVote(s, j, q, w, y);
      assert MessageAgrees(c, s, PrepareAns(q, prop, v, j, a[j].value));
      assert Voted(j, q, w, y) in s.log && w <= t.top;
      TopIsTheOne(c, s, q, prop, v, a, t, oks, w, y, voters);
    }
  }

  lemma TopIsTheOne(c: Cell, s: State, q: int, prop: int, v: nat, a: seq<Option<PrepareReply>>, t: PrepareTally,
                    oks: set<nat>, w: nat, y: string, voters: set<nat>)
    requires AllOk(c, s) && Agrees(c, s) && |a| <= c.n
    requires TopReported(a, oks, t.top, t.va) && oks <= PrepareOks(a) && w <= t.top
    requires forall k :: k in oks ==> a[k].value.nA <= t.seen
    requires t.seen <= v && !exists z :: AcceptReq(q, v, z) in s.net
    requires forall k :: 0 <= k < |a| && a[k].Some? ==> PrepareAns(q, prop, v, k, a[k].value) in s.net
    requires Choosable(c, s, q, w, y, voters) && exists j :: Voted(j, q, w, y) in s.log
    ensures y == t.va
  {
    hide Chosen, BatchChosen, ServerAgrees;
    var k :| k in oks && k < |a| && a[k].Some? && a[k].value.acceptedView == t.top && a[k].value.vA == t.va;
    assert MessageAgrees(c, s, PrepareAns(q, prop, v, k, a[k].value));
    assert VoteAgrees(s, Voted(k, q, t.top, t.va));
    if w == t.top {
      var j :| Voted(j, q, w, y) in s.log;
      assert VoteAgrees(s, Voted(j, q, w, y));
      SameViewSameValue(c, s, q, w, y, t.va);
    } else {
      assert MessageAgrees(c, s, AcceptReq(q, t.top, t.va));
    }
  }

  // ---- Steps ----

  /** A step that adds no history: what it sends and stores is sound already. */
  lemma QuietAgrees(c: Cell, s: State, i: nat, q: int, e: Effect)
    requires i < |s.servers| == c.n && Forward(s, Commit(s, i, q, e)) && e.events == []
    requires e.server.proposed == s.servers[i].proposed && ServerAgrees(c, s, i, e.server)
    requires forall m :: m in e.sent ==> MessageAgrees(c, s, m) && !m.AcceptReq?
    ensures EffectAgrees(c, s, i, q, e)
  {
    var s' := Commit(s, i, q, e);
    ServerStaysAgreed(c, s, s', i, e.server);
    forall m | m in e.sent
      ensures MessageAgrees(c, s', m)
    {
      QuietMessage(c, s, s', m);
    }
  }

  lemma QuietMessage(c: Cell, s: State, s': State, m: Message)
    requires |s.servers| == c.n && Forward(s, s') && MessageAgrees(c, s, m) && !m.AcceptReq?
    ensures MessageAgrees(c, s', m)
  {
    match m {
      case PrepareAns(q, _, w, j, r) =>
        if r.ok {
          PromiseStays(c, s, s', q, w, j, r);
        }
        if r.value != "" {
          ChosenStays(c, s, s', q, r.value);
        }
      case LearnReq(q, x) => ChosenStays(c, s, s', q, x);
      case HeartbeatReq(_, _, decided) => BatchStays(c, s, s', decided);
      case HeartbeatAns(_, decided) => BatchStays(c, s, s', decided);
      case _ =>
    }
  }

  lemma AcceptPhaseAgrees(c: Cell, s: State, i: nat, q: int, p: Proposer, r: Server, x: string)
    requires i < |s.servers| == c.n && c.fix.keepProposal && Agrees(c, s) && Owner(p.view, c.n) == i
    requires r.proposed == s.servers[i].proposed && ServerAgrees(c, s, i, r)
    requires Forward(s, Commit(s, i, q, AcceptPhase(c.fix, r, q, p, x)))
    requires (p.view, q) !in r.proposed ==> SafeAt(c, s, q, p.view, x)
    ensures EffectAgrees(c, s, i, q, AcceptPhase(c.fix, r, q, p, x))
  {
    var e := AcceptPhase(c.fix, r, q, p, x);
    var s' := Commit(s, i, q, e);
    var y := ProposalFor(c.fix, r, q, p.view, x);
    if (p.view, q) in r.proposed {
      assert MessageAgrees(c, s, AcceptReq(q, p.view, y));
    }
    SafeStays(c, s, s', q, p.view, y);
    ServerStaysAgreed(c, s, s', i, r);
    assert s'.servers[i] == e.server;
  }

  lemma BeginAgrees(c: Cell, s: State, i: nat, q: int, v: string, view: nat)
    requires c.fix.keepProposal && AllOk(c, s) && EventsOk(c, s, s.log) && WinsOk(c, s) && Agrees(c, s)
    requires i < c.n && CanBegin(c, s, i, q, v, view) && Led(c, s, i, view)
    requires Forward(s, Commit(s, i, q, BeginEffect(c, s.servers[i], q, v, view)))
    ensures EffectAgrees(c, s, i, q, BeginEffect(c, s.servers[i], q, v, view))
  {
    var r := s.servers[i];
    assert ServerAgrees(c, s, i, r);
    if r.slots[q].status != DECIDED && q > r.highestAcceptedSeq {
      SkipIsSafe(c, s, i, q, view, v);
      AcceptPhaseAgrees(c, s, i, q, Proposer(v, view, Accepting(v, [])), r, v);
    } else {
      var e := BeginEffect(c, r, q, v, view);
      assert SlotAgrees(c, s, i, q, r.slots[q]);
      QuietAgrees(c, s, i, q, e);
    }
  }

  lemma FinishPrepareAgrees(c: Cell, s: State, i: nat, q: int)
    requires c.n >= 2 && c.fix.All() && AllOk(c, s) && Agrees(c, s) && Valid(s)
    requires i < c.n && CanFinishPrepare(c, s, i, q)
    requires ProposerAt(c, s, i, q) && ProposerOk(c, s, i, q)
    requires Forward(s, Commit(s, i, q, FinishPrepareEffect(c, s.servers[i], q, s.proposers[(i, q)])))
    ensures EffectAgrees(c, s, i, q, FinishPrepareEffect(c, s.servers[i], q, s.proposers[(i, q)]))
  {
    hide EffectAgrees, Agrees, Valid, Forward;
    var r, p := s.servers[i], s.proposers[(i, q)];
    var oks := RoundMeaning(c.fix, c.n, p.v, r.slots[q].highestN, p.phase.prepares);
    RoundAgrees(c, s, i, q, p, TallyOf(c, r, q, p), oks);
  }

  lemma RoundAgrees(c: Cell, s: State, i: nat, q: int, p: Proposer, t: PrepareTally, oks: set<nat>)
    requires c.n >= 2 && c.fix.All() && AllOk(c, s) && Agrees(c, s) && Valid(s)
    requires i < c.n && p.phase.Preparing? && q in s.servers[i].slots
    requires Owner(p.view, c.n) == i && PhaseOk(c, q, p, s.net)
    requires t == TallyOf(c, s.servers[i], q, p) && RoundMeans(p.v, p.phase.prepares, t, oks)
    requires Forward(s, Commit(s, i, q, FinishPrepareEffect(c, s.servers[i], q, p)))
    ensures EffectAgrees(c, s, i, q, FinishPrepareEffect(c, s.servers[i], q, p))
  {
    var r := s.servers[i];
    var r1 := r.(slots := r.slots[q := r.slots[q].(highestN := t.highestN)]);
    HighestNAgrees(c, s, i, q, t.highestN);
    DecidedWasReported(c.fix, c.n, p.v, r.slots[q].highestN, p.phase.prepares);
    if t.seen <= p.view && t.decided.None? && t.majority > c.n / 2 {
      ChoiceIsSafe(c, s, i, q, p, t, oks);
      AcceptPhaseAgrees(c, s, i, q, p, r1, if t.va == "" then p.v else t.va);
    } else {
      RoundEndsQuietly(c, s, i, q, p, t, r1);
    }
  }

  lemma HighestNAgrees(c: Cell, s: State, i: nat, q: int, h: int)
    requires i < |s.servers| && q in s.servers[i].slots && ServerAgrees(c, s, i, s.servers[i])
    ensures var r := s.servers[i]; ServerAgrees(c, s, i, r.(slots := r.slots[q := r.slots[q].(highestN := h)]))
  {
    var r := s.servers[i];
    assert SlotAgrees(c, s, i, q, r.slots[q]);
    assert SlotAgrees(c, s, i, q, r.slots[q].(highestN := h));
  }

  lemma RoundEndsQuietly(c: Cell, s: State, i: nat, q: int, p: Proposer, t: PrepareTally, r1: Server)
    requires c.fix.All() && i < |s.servers| == c.n && Agrees(c, s)
    requires p.phase.Preparing? && q in s.servers[i].slots && PhaseOk(c, q, p, s.net)
    requires t == TallyOf(c, s.servers[i], q, p)
    requires r1 == s.servers[i].(slots := s.servers[i].slots[q := s.servers[i].slots[q].(highestN := t.highestN)])
    requires ServerAgrees(c, s, i, r1) && (t.decided.Some? ==> WasReported(p.phase.prepares, t.decided.value))
    requires t.seen > p.view || t.decided.Some? || t.majority <= c.n / 2
    requires Forward(s, Commit(s, i, q, FinishPrepareEffect(c, s.servers[i], q, p)))
    ensures EffectAgrees(c, s, i, q, FinishPrepareEffect(c, s.servers[i], q, p))
  {
    if t.seen <= p.view && t.decided.Some? {
      ReportedIsChosen(c, s, q, p, t.decided.value);
    }
    QuietAgrees(c, s, i, q, FinishPrepareEffect(c, s.servers[i], q, p));
  }

  lemma ReportedIsChosen(c: Cell, s: State, q: int, p: Proposer, x: string)
    requires Agrees(c, s) && p.phase.Preparing? && PhaseOk(c, q, p, s.net) && WasReported(p.phase.prepares, x)
    ensures Chosen(c, s, q, x)
  {
    var a := p.phase.prepares;
    var k :| 0 <= k < |a| && a[k].Some? && a[k].value.value == x;
    assert MessageAgrees(c, s, PrepareAns(q, p.phase.prop, p.view, k, a[k].value));
  }

  lemma ChoiceIsSafe(c: Cell, s: State, i: nat, q: int, p: Proposer, t: PrepareTally, oks: set<nat>)
    requires c.n >= 2 && AllOk(c, s) && Agrees(c, s) && Valid(s) && i < c.n && Owner(p.view, c.n) == i
    requires p.phase.Preparing? && PhaseOk(c, q, p, s.net)
    requires RoundMeans(p.v, p.phase.prepares, t, oks) && t.majority > c.n / 2 && t.seen <= p.view
    ensures (p.view, q) !in s.servers[i].proposed ==> SafeAt(c, s, q, p.view, if t.va == "" then p.v else t.va)
  {
    if (p.view, q) !in s.servers[i].proposed {
      forall y
        ensures AcceptReq(q, p.view, y) !in s.net
      {
        assert AcceptReq(q, p.view, y) in s.net ==> MessageAgrees(c, s, AcceptReq(q, p.view, y));
      }
      if t.top != -1 {
        TopIsNotBlank(c, s, q, p, t, oks);
      }
      RoundIsSafe(c, s, q, p.phase.prop, p.view, p.phase.prepares, t, oks, p.v, if t.va == "" then p.v else t.va);
    }
  }

  lemma TopIsNotBlank(c: Cell, s: State, q: int, p: Proposer, t: PrepareTally, oks: set<nat>)
    requires Agrees(c, s) && Valid(s) && p.phase.Preparing? && PhaseOk(c, q, p, s.net)
    requires RoundMeans(p.v, p.phase.prepares, t, oks) && t.top >= 0
    ensures t.va != ""
  {
    hide Chosen, SafeAt, BatchChosen, ServerAgrees, BatchValid, ServerValid, ProposerValid, ProposedIs;
    var a := p.phase.prepares;
    var k :| k in oks && k < |a| && a[k].Some? && a[k].value.acceptedView == t.top && a[k].value.vA == t.va;
    assert MessageAgrees(c, s, PrepareAns(q, p.phase.prop, p.view, k, a[k].value));
    assert VoteAgrees(s, Voted(k, q, t.top, t.va));
    assert MessageValid(s.net, AcceptReq(q, t.top, t.va));
  }

  lemma StartAgrees(c: Cell, s: State, i: nat, q: int, v: string)
    requires i < |s.servers| == c.n && Agrees(c, s)
    ensures Forward(s, Commit(s, i, 0, StartEffect(s.servers[i], i, q, v))) ==>
              EffectAgrees(c, s, i, 0, StartEffect(s.servers[i], i, q, v))
    ensures Forward(s, Commit(s, i, 0, CallStartEffect(s.servers[i], i, q, v))) ==>
              EffectAgrees(c, s, i, 0, CallStartEffect(s.servers[i], i, q, v))
    ensures Forward(s, Commit(s, i, 0, PassOnEffect(s.servers[i], i, q, v))) ==>
              EffectAgrees(c, s, i, 0, PassOnEffect(s.servers[i], i, q, v))
  {
    TouchAgrees(c, s, i, q);
    if Forward(s, Commit(s, i, 0, StartEffect(s.servers[i], i, q, v))) {
      QuietAgrees(c, s, i, 0, StartEffect(s.servers[i], i, q, v));
    }
    if Forward(s, Commit(s, i, 0, CallStartEffect(s.servers[i], i, q, v))) {
      QuietAgrees(c, s, i, 0, CallStartEffect(s.servers[i], i, q, v));
    }
    if Forward(s, Commit(s, i, 0, PassOnEffect(s.servers[i], i, q, v))) {
      QuietAgrees(c, s, i, 0, PassOnEffect(s.servers[i], i, q, v));
    }
  }

  lemma TouchAgrees(c: Cell, s: State, i: nat, q: int)
    requires i < |s.servers| && Agrees(c, s)
    ensures ServerAgrees(c, s, i, s.servers[i]) && ServerAgrees(c, s, i, AddSlots(s.servers[i], q))
    ensures SlotAgrees(c, s, i, q, Touched(s.servers[i], q))
  {
    var r := s.servers[i];
    assert ServerAgrees(c, s, i, r);
    assert q in r.slots ==> SlotAgrees(c, s, i, q, r.slots[q]);
    assert SlotAgrees(c, s, i, q, Touched(r, q));
  }

  lemma PreparedAgrees(c: Cell, s: State, i: nat, q: int, prop: int, view: nat)
    requires i < |s.servers| && Agrees(c, s)
    ensures ServerAgrees(c, s, i, Prepare(c.fix, s.servers[i], q, prop, view).0)
    ensures var a := Prepare(c.fix, s.servers[i], q, prop, view).1;
            a.Some? && a.value.value != "" ==> Chosen(c, s, q, a.value.value)
  {
    TouchAgrees(c, s, i, q);
  }

  lemma DeliverPrepareAgrees(c: Cell, s: State, i: nat, q: int, prop: int, view: nat)
    requires c.fix.promiseViews && AllOk(c, s) && Agrees(c, s) && i < c.n
    requires Forward(s, Commit(s, i, 0, DeliverPrepareEffect(c, s.servers[i], i, q, prop, view)))
    ensures EffectAgrees(c, s, i, 0, DeliverPrepareEffect(c, s.servers[i], i, q, prop, view))
  {
    var e := DeliverPrepareEffect(c, s.servers[i], i, q, prop, view);
    var s' := Commit(s, i, 0, e);
    PreparedAgrees(c, s, i, q, prop, view);
    ServerStaysAgreed(c, s, s', i, e.server);
    var a := Prepare(c.fix, s.servers[i], q, prop, view).1;
    if a.Some? {
      if a.value.ok {
        PromiseIsOk(c, s, i, q, prop, view);
      }
      if a.value.value != "" {
        ChosenStays(c, s, s', q, a.value.value);
      }
      assert MessageAgrees(c, s', PrepareAns(q, prop, view, i, a.value));
    }
  }

  /** An OK answer reports the latest accept of the slot, and the new view keeps earlier ones out. */
  lemma PromiseIsOk(c: Cell, s: State, i: nat, q: int, prop: int, view: nat)
    requires c.fix.promiseViews && AllOk(c, s) && Agrees(c, s) && i < c.n && q >= s.servers[i].lowestSlot
    requires Prepare(c.fix, s.servers[i], q, prop, view).1.value.ok
    ensures var e := DeliverPrepareEffect(c, s.servers[i], i, q, prop, view);
            PromiseOk(Commit(s, i, 0, e), q, view, i, Prepare(c.fix, s.servers[i], q, prop, view).1.value)
  {
    var r := s.servers[i];
    var e := DeliverPrepareEffect(c, r, i, q, prop, view);
    var s' := Commit(s, i, 0, e);
    var a := Prepare(c.fix, r, q, prop, view).1.value;
    assert s'.servers[i] == e.server && s'.log == s.log;
    assert ServerOk(r) && ServerAgrees(c, s, i, r);
    assert q in r.slots ==> SlotAgrees(c, s, i, q, r.slots[q]) && SlotOk(r.view, r.slots[q]);
    forall u: nat, y | Voted(i, q, u, y) in s.log && u < view
      ensures u <= a.acceptedView
    {
      assert VoteAgrees(s, Voted(i, q, u, y));
    }
  }

  lemma DeliverAcceptAgrees(c: Cell, s: State, i: nat, q: int, view: nat, v: string)
    requires AllOk(c, s) && Agrees(c, s) && i < c.n && AcceptReq(q, view, v) in s.net
    requires Forward(s, Commit(s, i, 0, DeliverAcceptEffect(s.servers[i], i, q, view, v)))
    ensures EffectAgrees(c, s, i, 0, DeliverAcceptEffect(s.servers[i], i, q, view, v))
  {
    var r := s.servers[i];
    var e := DeliverAcceptEffect(r, i, q, view, v);
    var s' := Commit(s, i, 0, e);
    TouchAgrees(c, s, i, q);
    assert s'.servers[i] == e.server && s.log <= s'.log && s.net <= s'.net;
    ServerStaysAgreed(c, s, s', i, AddSlots(r, q));
    ServerStaysAgreed(c, s, s', i, r);
    hide Agrees, Forward, AllOk;
    assert e.events != [] ==> s'.log[|s.log|] == Voted(i, q, view, v);
    VotingAgrees(c, s', i, r, q, view, v);
    hide ServerAgrees;
  }

  /** A server that has accepted, with its vote in history. */
  lemma VotingAgrees(c: Cell, s: State, i: nat, r: Server, q: int, view: nat, v: string)
    requires ServerAgrees(c, s, i, r) && ServerAgrees(c, s, i, AddSlots(r, q))
    requires var a := Accept(r, q, view, v).1; a.Some? && a.value.ok ==> Voted(i, q, view, v) in s.log
    ensures ServerAgrees(c, s, i, Accept(r, q, view, v).0)
  {
    var r1, r2 := AddSlots(r, q), Accept(r, q, view, v).0;
    assert SlotAgrees(c, s, i, q, r1.slots[q]);
    if q >= r.lowestSlot {
      assert SlotAgrees(c, s, i, q, r2.slots[q]);
      assert r2.slots == r1.slots[q := r2.slots[q]];
    }
  }

  lemma FinishAcceptAgrees(c: Cell, s: State, i: nat, q: int)
    requires c.fix.needMajority && AllOk(c, s) && MessagesOk(c, s, s.net) && Agrees(c, s) && i < c.n
    requires CanFinishAccept(c, s, i, q) && ProposerAt(c, s, i, q)
    requires Forward(s, Commit(s, i, q, FinishAcceptEffect(c, s.servers[i], q, s.proposers[(i, q)])))
    ensures EffectAgrees(c, s, i, q, FinishAcceptEffect(c, s.servers[i], q, s.proposers[(i, q)]))
  {
    var p := s.proposers[(i, q)];
    var e := FinishAcceptEffect(c, s.servers[i], q, p);
    assert ServerAgrees(c, s, i, s.servers[i]);
    OnlyMajoritiesTeach(c, s.servers[i], q, p);
    if e.sent != {} {
      CountedIsChosen(c, s, q, p);
    }
    hide FinishAcceptEffect, Forward, ServerAgrees, Agrees, EffectAgrees, Chosen, AllOk, MessagesOk;
    QuietAgrees(c, s, i, q, e);
  }

  lemma OnlyMajoritiesTeach(c: Cell, r: Server, q: int, p: Proposer)
    requires c.fix.needMajority && p.phase.Accepting?
    ensures var e := FinishAcceptEffect(c, r, q, p);
      && e.events == [] && e.server == r
      && (e.sent == {} || (e.sent == {LearnReq(q, p.phase.accepted)} && TallyAccept(q, p.phase.accepts).majority > c.n / 2))
  {
  }

  /** What a majority of OK answers accepted is chosen. */
  lemma CountedIsChosen(c: Cell, s: State, q: int, p: Proposer)
    requires |s.servers| == c.n && MessagesOk(c, s, s.net) && p.phase.Accepting? && PhaseOk(c, q, p, s.net)
    requires TallyAccept(q, p.phase.accepts).majority > c.n / 2
    ensures Chosen(c, s, q, p.phase.accepted)
  {
    var a := p.phase.accepts;
    AcceptMeaning(q, a);
    forall k | k in AcceptOks(a)
      ensures k < c.n && Voted(k, q, p.view, p.phase.accepted) in s.log
    {
      assert MessageOk(c, s, AcceptAns(q, p.view, p.phase.accepted, k, a[k].value));
    }
    assert ChosenBy(c, s, q, p.view, p.phase.accepted, AcceptOks(a));
  }

  lemma LearnAgrees(c: Cell, s: State, i: nat, q: int, v: string)
    requires i < |s.servers| == c.n && Agrees(c, s) && Chosen(c, s, q, v)
    requires Forward(s, Commit(s, i, 0, DeliverLearnEffect(s.servers[i], i, q, v)))
    ensures EffectAgrees(c, s, i, 0, DeliverLearnEffect(s.servers[i], i, q, v))
  {
    var e := DeliverLearnEffect(s.servers[i], i, q, v);
    var s' := Commit(s, i, 0, e);
    TouchAgrees(c, s, i, q);
    assert ServerAgrees(c, s, i, e.server);
    ServerStaysAgreed(c, s, s', i, e.server);
  }

  lemma CopyAgrees(c: Cell, s: State, i: nat, r: Server, decided: map<int, string>)
    requires i < |s.servers| && ServerAgrees(c, s, i, r) && BatchChosen(c, s, decided)
    ensures ServerAgrees(c, s, i, DecideAll(r, decided))
  {
    forall q | q in DecideAll(r, decided).slots
      ensures SlotAgrees(c, s, i, q, DecideAll(r, decided).slots[q])
    {
      assert q in r.slots ==> SlotAgrees(c, s, i, q, r.slots[q]);
    }
  }

  lemma HeartbeatAgrees(c: Cell, s: State, i: nat, view: nat, done: seq<int>, decided: map<int, string>)
    requires i < |s.servers| == c.n && Agrees(c, s) && BatchChosen(c, s, decided)
    requires Forward(s, Commit(s, i, 0, DeliverHeartbeatEffect(c, s.servers[i], view, done, decided)))
    ensures EffectAgrees(c, s, i, 0, DeliverHeartbeatEffect(c, s.servers[i], view, done, decided))
  {
    var r := s.servers[i];
    assert ServerAgrees(c, s, i, r);
    var r1 := Adopt(r, view).(done := done, missedHeartbeats := 0);
    assert ServerAgrees(c, s, i, r1);
    CopyAgrees(c, s, i, r1, decided);
    OwnDecisionsChosen(c, s, i);
    QuietAgrees(c, s, i, 0, DeliverHeartbeatEffect(c, r, view, done, decided));
  }

  lemma OwnDecisionsChosen(c: Cell, s: State, i: nat)
    requires i < |s.servers| && Agrees(c, s)
    ensures BatchChosen(c, s, s.servers[i].Decided())
  {
    assert ServerAgrees(c, s, i, s.servers[i]);
    forall q | q in s.servers[i].Decided()
      ensures Chosen(c, s, q, s.servers[i].Decided()[q])
    {
      assert SlotAgrees(c, s, i, q, s.servers[i].slots[q]);
    }
  }

  lemma StepAgrees(c: Cell, s: State, t: Step)
    requires c.n >= 2 && c.fix.All() && c.oneElection && Inv(c, s) && Valid(s) && Agrees(c, s) && Enabled(c, s, t)
    ensures Agrees(c, Apply(c, s, t))
  {
    StepKeeps(c, s, t);
    StepEffectAgrees(c, s, t);
    CommitAgrees(c, s, t.i, SlotOf(t), EffectOf(c, s, t));
  }

  lemma StepEffectAgrees(c: Cell, s: State, t: Step)
    requires c.n >= 2 && c.fix.All() && c.oneElection && Inv(c, s) && Valid(s) && Agrees(c, s) && Enabled(c, s, t)
    requires Forward(s, Apply(c, s, t))
    ensures EffectAgrees(c, s, t.i, SlotOf(t), EffectOf(c, s, t))
  {
    if IsIdle(t) {
      IdleAgrees(c, s, t);
    } else if IsSharing(t) {
      SharingAgrees(c, s, t);
    } else {
      ProposalAgrees(c, s, t);
    }
  }

  lemma ProposalAgrees(c: Cell, s: State, t: Step)
    requires c.n >= 2 && c.fix.All() && c.oneElection && Inv(c, s) && Valid(s) && Agrees(c, s) && Enabled(c, s, t)
    requires !IsIdle(t) && !IsSharing(t) && Forward(s, Apply(c, s, t))
    ensures EffectAgrees(c, s, t.i, SlotOf(t), EffectOf(c, s, t))
  {
    match t {
      case Begin(i, q, v, view) =>
        assert MessageOk(c, s, Launch(i, q, v, view));
        BeginAgrees(c, s, i, q, v, view);
      case DeliverPrepare(i, q, prop, view) => DeliverPrepareAgrees(c, s, i, q, prop, view);
      case FinishPrepare(i, q) => FinishPrepareAgrees(c, s, i, q);
      case DeliverAccept(i, q, view, v) => DeliverAcceptAgrees(c, s, i, q, view, v);
      case FinishAccept(i, q) => FinishAcceptAgrees(c, s, i, q);
    }
  }

  predicate IsSharing(t: Step) {
    t.CallStart? || t.PassOn? || t.ArriveForward? || t.DeliverLearn? || t.SendHeartbeat? || t.DeliverHeartbeat?
    || t.AnswerHeartbeat?
  }

  lemma SharingAgrees(c: Cell, s: State, t: Step)
    requires Agrees(c, s) && Enabled(c, s, t) && IsSharing(t) && Forward(s, Apply(c, s, t))
    ensures EffectAgrees(c, s, t.i, 0, EffectOf(c, s, t))
  {
    hide StartEffect, CallStartEffect, PassOnEffect, DeliverLearnEffect, DeliverHeartbeatEffect, EffectAgrees, Forward;
    match t {
      case CallStart(i, q, v) => StartAgrees(c, s, i, q, v);
      case PassOn(i, q, v) => StartAgrees(c, s, i, q, v);
      case ArriveForward(i, q, v) => StartAgrees(c, s, i, q, v);
      case DeliverLearn(i, q, v) =>
        assert MessageAgrees(c, s, LearnReq(q, v));
        LearnAgrees(c, s, i, q, v);
      case SendHeartbeat(i, to) => SendAgrees(c, s, i, to);
      case DeliverHeartbeat(i, view, done, decided) =>
        assert MessageAgrees(c, s, HeartbeatReq(view, done, decided));
        HeartbeatAgrees(c, s, i, view, done, decided);
      case AnswerHeartbeat(i, decided) =>
        assert MessageAgrees(c, s, HeartbeatAns(i, decided));
        CopiedAgrees(c, s, i, decided);
    }
  }

  lemma CopiedAgrees(c: Cell, s: State, i: nat, decided: map<int, string>)
    requires i < |s.servers| == c.n && Agrees(c, s) && BatchChosen(c, s, decided)
    ensures var e := Sends(DecideAll(s.servers[i], decided), {});
      Forward(s, Commit(s, i, 0, e)) ==> EffectAgrees(c, s, i, 0, e)
  {
    var e := Sends(DecideAll(s.servers[i], decided), {});
    assert ServerAgrees(c, s, i, s.servers[i]);
    CopyAgrees(c, s, i, s.servers[i], decided);
    if Forward(s, Commit(s, i, 0, e)) {
      QuietAgrees(c, s, i, 0, e);
    }
  }

  lemma SendAgrees(c: Cell, s: State, i: nat, to: nat)
    requires i < |s.servers| == c.n && Agrees(c, s)
    ensures var r := s.servers[i];
            var e := Sends(r, {HeartbeatReq(r.view, Repeat(r.done, to + 1), r.Decided())});
            Forward(s, Commit(s, i, 0, e)) ==> EffectAgrees(c, s, i, 0, e)
  {
    var r := s.servers[i];
    var e := Sends(r, {HeartbeatReq(r.view, Repeat(r.done, to + 1), r.Decided())});
    assert ServerAgrees(c, s, i, r);
    OwnDecisionsChosen(c, s, i);
    if Forward(s, Commit(s, i, 0, e)) {
      QuietAgrees(c, s, i, 0, e);
    }
  }

  lemma IdleAgrees(c: Cell, s: State, t: Step)
    requires Agrees(c, s) && Enabled(c, s, t) && IsIdle(t) && Forward(s, Apply(c, s, t))
    ensures EffectAgrees(c, s, t.i, SlotOf(t), EffectOf(c, s, t))
  {
    IdleTouchesNoSlot(c, s, t);
    IdleEffectAgrees(c, s, t.i, SlotOf(t), EffectOf(c, s, t));
  }

  lemma IdleEffectAgrees(c: Cell, s: State, i: nat, q: int, e: Effect)
    requires i < |s.servers| && Agrees(c, s) && TouchesNoSlot(s.servers[i], e)
    ensures EffectAgrees(c, s, i, q, e)
  {
    assert ServerAgrees(c, s, i, s.servers[i]);
    assert ServerAgrees(c, s, i, e.server);
    ServerStaysAgreed(c, s, Commit(s, i, q, e), i, e.server);
  }

  // ---- Agreement over all runs ----

  lemma InitAgrees(c: Cell)
    ensures Agrees(c, Init(c))
  {
  }

  lemma {:induction false} RunAgrees(c: Cell, states: seq<State>, steps: seq<Step>, k: nat)
    requires c.n >= 2 && c.fix.All() && c.oneElection && Run(c, states, steps) && k < |states|
    ensures Agrees(c, states[k])
  {
    hide Enabled, Apply, Inv, Valid, Agrees, Init;
    if k == 0 {
      InitAgrees(c);
    } else {
      RunAgrees(c, states, steps, k - 1);
      RunInv(c, states, steps, k - 1);
      RunValid(c, states, steps, k - 1);
      StepAgrees(c, states[k - 1], steps[k - 1]);
    }
  }

  /** Agreement: in every run of the repaired protocol, whatever is lost, whoever leads and whoever competes. */
  lemma RepairedAgreement(c: Cell, states: seq<State>, steps: seq<Step>, k: nat)
    requires c.n >= 2 && c.fix.All() && c.oneElection && Run(c, states, steps) && k < |states|
    ensures Consistent(states[k])
  {
    var s := states[k];
    RunAgrees(c, states, steps, k);
    RunInv(c, states, steps, k);
    forall i: nat, j: nat, q | DecideBoth(s, i, j, q)
      ensures s.servers[i].Decided()[q] == s.servers[j].Decided()[q]
    {
      OwnDecisionsChosen(c, s, i);
      OwnDecisionsChosen(c, s, j);
      ChosenIsUnique(c, s, q, s.servers[i].Decided()[q], s.servers[j].Decided()[q]);
    }
  }

  /** ... and across time: a value decided once is the value of the slot for ever, at every server. */
  lemma AgreementAcrossTime(c: Cell, states: seq<State>, steps: seq<Step>, m: nat, i: nat, k: nat, j: nat, q: int)
    requires c.n >= 2 && c.fix.All() && c.oneElection && Run(c, states, steps) && m <= k < |states|
    requires i < |states[m].servers| && q in states[m].servers[i].Decided()
    requires j < |states[k].servers| && q in states[k].servers[j].Decided()
    ensures states[m].servers[i].Decided()[q] == states[k].servers[j].Decided()[q]
  {
    OnlyForward(c, states, steps, m, k);
    RunInv(c, states, steps, m);
    assert ServerForward(states[m].servers[i], states[k].servers[i]);
    RepairedAgreement(c, states, steps, k);
    assert DecideBoth(states[k], i, j, q);
  }
}
