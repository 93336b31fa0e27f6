/** While the view does not change, and the leader's Learn calls to itself arrive, the program as written agrees:
    `slot->mu` lets one proposer at a time work on a slot, and none starts once the leader knows the decision. */
module StableView {
  import opened PaxosTypes
  import opened Handlers
  import opened Tallies
  import opened Cluster
  import opened Decisions
  import opened Progress
  import opened Basics

  /** Where the value of slot `q` comes from: the leader's decision, or else its proposer that is teaching it. */
  ghost function Source(s: State, lead: nat, q: int): Option<string>
    requires lead < |s.servers|
  {
    if q in s.servers[lead].Decided() then Some(s.servers[lead].Decided()[q])
    else if (lead, q) in s.proposers && s.proposers[(lead, q)].phase.Learning? then
      Some(s.proposers[(lead, q)].phase.learned)
    else None
  }

  ghost predicate BatchFrom(s: State, lead: nat, decided: map<int, string>)
    requires lead < |s.servers|
  {
    forall q :: q in decided ==> Source(s, lead, q) == Some(decided[q])
  }

  ghost predicate MessageFrom(s: State, lead: nat, m: Message)
    requires lead < |s.servers|
  {
    match m
    case Launch(i, _, _, _) => i == lead
    case PrepareAns(q, _, _, _, r) => r.value != "" ==> Source(s, lead, q) == Some(r.value)
    case LearnReq(q, x) => Source(s, lead, q) == Some(x)
    case HeartbeatReq(_, _, decided) => BatchFrom(s, lead, decided)
    case HeartbeatAns(_, decided) => BatchFrom(s, lead, decided)
    case _ => true
  }

  ghost predicate ProposerFrom(s: State, lead: nat, i: nat, q: int, p: Proposer)
    requires lead < |s.servers|
  {
    && i == lead
    && match p.phase
       case Learning(x) => Source(s, lead, q) == Some(x)
       case _ => q !in s.servers[lead].Decided()
  }

  ghost predicate Stable(s: State, lead: nat) {
    && lead < |s.servers|
    && (forall j :: 0 <= j < |s.servers| ==> BatchFrom(s, lead, s.servers[j].Decided()))
    && (forall m :: m in s.net ==> MessageFrom(s, lead, m))
    && forall i, q :: (i, q) in s.proposers ==> ProposerFrom(s, lead, i, q, s.proposers[(i, q)])
  }

  ghost predicate SourcesKept(s: State, s': State, lead: nat) {
    && lead < |s.servers| == |s'.servers|
    && forall q :: Source(s, lead, q).Some? ==> Source(s', lead, q) == Source(s, lead, q)
  }

  /** What a step must establish in the state it leads to. */
  ghost predicate EffectFrom(s: State, lead: nat, i: nat, q: int, e: Effect)
    requires i < |s.servers|
  {
    var s' := Commit(s, i, q, e);
    && SourcesKept(s, s', lead)
    && BatchFrom(s', lead, e.server.Decided())
    && (forall m :: m in e.sent ==> MessageFrom(s', lead, m))
    && (i == lead ==> forall k :: (i, k) in s'.proposers ==> ProposerFrom(s', lead, i, k, s'.proposers[(i, k)]))
    && (e.proposer.Set? ==> i == lead)
  }

  lemma CommitFrom(s: State, lead: nat, i: nat, q: int, e: Effect)
    requires i < |s.servers| && Stable(s, lead) && EffectFrom(s, lead, i, q, e)
    ensures Stable(Commit(s, i, q, e), lead)
  {
    var s' := Commit(s, i, q, e);
    forall j | 0 <= j < |s'.servers|
      ensures BatchFrom(s', lead, s'.servers[j].Decided())
    {
      if j != i {
        assert BatchFrom(s, lead, s.servers[j].Decided());
      }
    }
    forall m | m in s'.net
      ensures MessageFrom(s', lead, m)
    {
      if m in s.net {
        assert MessageFrom(s, lead, m);
      }
    }
    forall j, k | (j, k) in s'.proposers
      ensures ProposerFrom(s', lead, j, k, s'.proposers[(j, k)])
    {
      if j != i {
        assert ProposerFrom(s, lead, j, k, s.proposers[(j, k)]);
        assert s'.servers[j] == s.servers[j];
      }
    }
  }

  /** A step that decides only what the source says, and changes no proposer. */
  lemma DecidingFrom(s: State, lead: nat, i: nat, q: int, e: Effect)
    requires i < |s.servers| && Stable(s, lead) && e.proposer.Keep?
    requires BatchFrom(s, lead, e.server.Decided()) && s.servers[i].Decided().Keys <= e.server.Decided().Keys
    requires forall m :: m in e.sent ==> MessageFrom(s, lead, m)
    ensures EffectFrom(s, lead, i, q, e)
  {
    var s' := Commit(s, i, q, e);
    forall k
      ensures Source(s', lead, k) == Source(s, lead, k)
    {
      assert BatchFrom(s, lead, s.servers[lead].Decided());
    }
    if i == lead {
      forall k | (i, k) in s'.proposers
        ensures ProposerFrom(s', lead, i, k, s'.proposers[(i, k)])
      {
        assert ProposerFrom(s, lead, i, k, s.proposers[(i, k)]);
      }
    }
  }

  /** A proposer of the leader that is not teaching starts, goes on, or ends. */
  lemma ProposingFrom(s: State, lead: nat, i: nat, q: int, e: Effect)
    requires i < |s.servers| && Stable(s, lead) && i == lead && q !in s.servers[i].Decided()
    requires (i, q) in s.proposers ==> !s.proposers[(i, q)].phase.Learning?
    requires e.proposer.Drop? || (e.proposer.Set? && !e.proposer.value.phase.Learning?)
    requires e.server.Decided() == s.servers[i].Decided()
    requires forall m :: m in e.sent ==> MessageFrom(s, lead, m)
    ensures EffectFrom(s, lead, i, q, e)
  {
    var s' := Commit(s, i, q, e);
    assert forall k :: Source(s', lead, k) == Source(s, lead, k);
    assert BatchFrom(s, lead, s.servers[i].Decided());
    forall k | (i, k) in s'.proposers
      ensures ProposerFrom(s', lead, i, k, s'.proposers[(i, k)])
    {
      assert k != q ==> ProposerFrom(s, lead, i, k, s.proposers[(i, k)]);
    }
  }

  /** The leader's proposer starts to teach: it becomes the source. */
  lemma TeachingFrom(s: State, lead: nat, i: nat, q: int, p: Proposer, r: Server, x: string)
    requires i < |s.servers| && Stable(s, lead) && (i, q) in s.proposers && !s.proposers[(i, q)].phase.Learning?
    requires r.Decided() == s.servers[i].Decided()
    ensures EffectFrom(s, lead, i, q, LearnPhase(r, q, p, x))
  {
    var e := LearnPhase(r, q, p, x);
    var s' := Commit(s, i, q, e);
    assert ProposerFrom(s, lead, i, q, s.proposers[(i, q)]);
    assert BatchFrom(s, lead, s.servers[i].Decided());
    forall k | (i, k) in s'.proposers
      ensures ProposerFrom(s', lead, i, k, s'.proposers[(i, k)])
    {
      assert k != q ==> ProposerFrom(s, lead, i, k, s.proposers[(i, k)]);
    }
  }

  /** The leader's proposer ends once the leader itself has the decision. */
  lemma TaughtFrom(s: State, lead: nat, i: nat, q: int)
    requires i < |s.servers| && Stable(s, lead) && (i, q) in s.proposers && s.proposers[(i, q)].phase.Learning?
    requires q in s.servers[i].Decided()
    ensures EffectFrom(s, lead, i, q, Sends(s.servers[i], {}).(proposer := Drop))
  {
    var e := Sends(s.servers[i], {}).(proposer := Drop);
    var s' := Commit(s, i, q, e);
    assert ProposerFrom(s, lead, i, q, s.proposers[(i, q)]);
    assert BatchFrom(s, lead, s.servers[i].Decided());
    assert forall k :: Source(s', lead, k) == Source(s, lead, k);
    forall k | (i, k) in s'.proposers
      ensures ProposerFrom(s', lead, i, k, s'.proposers[(i, k)])
    {
      assert ProposerFrom(s, lead, i, k, s.proposers[(i, k)]);
    }
  }

  // ---- Steps ----

  lemma BatchIsFrom(s: State, lead: nat, j: nat, decided: map<int, string>)
    requires j < |s.servers| && Stable(s, lead) && BatchFrom(s, lead, decided)
    ensures BatchFrom(s, lead, decided + s.servers[j].Decided())
    ensures BatchFrom(s, lead, s.servers[j].Decided() - decided.Keys)
  {
    assert BatchFrom(s, lead, s.servers[j].Decided());
  }

  lemma BeginFrom(c: Cell, s: State, lead: nat, i: nat, q: int, v: string, view: nat)
    requires Stable(s, lead) && i < |s.servers| && CanBegin(c, s, i, q, v, view)
    ensures EffectFrom(s, lead, i, q, BeginEffect(c, s.servers[i], q, v, view))
  {
    var r := s.servers[i];
    var e := BeginEffect(c, r, q, v, view);
    assert MessageFrom(s, lead, Launch(i, q, v, view));
    assert BatchFrom(s, lead, r.Decided());
    if r.slots[q].status == DECIDED {
      DecidingFrom(s, lead, i, q, e);
    } else {
      SameDecisionsAt(r, e.server, q);
      ProposingFrom(s, lead, i, q, e);
    }
  }

  lemma SameDecisionsAt(r: Server, r1: Server, q: int)
    requires q in r.slots && q in r1.slots && r1.slots == r.slots[q := r1.slots[q]]
    requires r1.slots[q].status == r.slots[q].status && r1.slots[q].value == r.slots[q].value
    ensures r1.Decided() == r.Decided()
  {
    SameDecisions(r, r1, q, r1.slots[q]);
  }

  /** While the leader prepares a slot, no one can report a decision for it. */
  lemma NothingReported(c: Cell, s: State, lead: nat, i: nat, q: int)
    requires c.n >= 2 && Stable(s, lead) && i < |s.servers| && InPrepare(s, i, q)
    requires PhaseOk(c, q, s.proposers[(i, q)], s.net)
    ensures TallyOf(c, s.servers[i], q, s.proposers[(i, q)]).decided.None?
  {
    var p := s.proposers[(i, q)];
    assert ProposerFrom(s, lead, i, q, p);
    DecidedWasReported(c.fix, c.n, p.v, s.servers[i].slots[q].highestN, p.phase.prepares);
  }

  lemma FinishPrepareFrom(c: Cell, s: State, lead: nat, i: nat, q: int)
    requires c.n >= 2 && |s.servers| == c.n && Stable(s, lead) && i < c.n && CanFinishPrepare(c, s, i, q)
    requires PhaseOk(c, q, s.proposers[(i, q)], s.net)
    ensures EffectFrom(s, lead, i, q, FinishPrepareEffect(c, s.servers[i], q, s.proposers[(i, q)]))
  {
    var r, p := s.servers[i], s.proposers[(i, q)];
    var e := FinishPrepareEffect(c, r, q, p);
    var t := TallyOf(c, r, q, p);
    assert ProposerFrom(s, lead, i, q, p);
    SameDecisionsAt(r, e.server, q);
    NothingReported(c, s, lead, i, q);
    ProposingFrom(s, lead, i, q, e);
  }

  lemma FinishAcceptFrom(c: Cell, s: State, lead: nat, i: nat, q: int)
    requires Stable(s, lead) && i < |s.servers| && CanFinishAccept(c, s, i, q)
    ensures EffectFrom(s, lead, i, q, FinishAcceptEffect(c, s.servers[i], q, s.proposers[(i, q)]))
  {
    var p := s.proposers[(i, q)];
    assert ProposerFrom(s, lead, i, q, p);
    if FinishAcceptEffect(c, s.servers[i], q, p).proposer.Drop? {
      ProposingFrom(s, lead, i, q, FinishAcceptEffect(c, s.servers[i], q, p));
    } else {
      TeachingFrom(s, lead, i, q, p, s.servers[i], p.phase.accepted);
    }
  }

  lemma DeliverFrom(c: Cell, s: State, lead: nat, i: nat, q: int, prop: int, view: nat, v: string)
    requires Stable(s, lead) && i < |s.servers|
    ensures EffectFrom(s, lead, i, 0, DeliverPrepareEffect(c, s.servers[i], i, q, prop, view))
    ensures EffectFrom(s, lead, i, 0, DeliverAcceptEffect(s.servers[i], i, q, view, v))
  {
    var r := s.servers[i];
    assert BatchFrom(s, lead, r.Decided());
    PrepareDecidesNothing(c.fix, r, q, prop, view);
    AcceptDecidesNothing(r, q, view, v);
    assert q in r.slots && r.slots[q].status == DECIDED ==> q in r.Decided();
    DecidingFrom(s, lead, i, 0, DeliverPrepareEffect(c, r, i, q, prop, view));
    DecidingFrom(s, lead, i, 0, DeliverAcceptEffect(r, i, q, view, v));
  }

  lemma StartFrom(c: Cell, s: State, lead: nat, i: nat, q: int, v: string)
    requires AllOk(c, s) && Stable(s, lead) && i < c.n && Owner(s.servers[i].view, c.n) == lead
    ensures EffectFrom(s, lead, i, 0, StartEffect(s.servers[i], i, q, v))
    ensures EffectFrom(s, lead, i, 0, CallStartEffect(s.servers[i], i, q, v))
    ensures EffectFrom(s, lead, i, 0, PassOnEffect(s.servers[i], i, q, v))
  {
    var r := s.servers[i];
    assert BatchFrom(s, lead, r.Decided());
    StartDecidesNothing(r, q);
    DecidingFrom(s, lead, i, 0, StartEffect(r, i, q, v));
    DecidingFrom(s, lead, i, 0, CallStartEffect(r, i, q, v));
    PassOnDecidesNothing(r, q);
    DecidingFrom(s, lead, i, 0, PassOnEffect(r, i, q, v));
  }

  lemma LearnFrom(s: State, lead: nat, i: nat, q: int, v: string)
    requires Stable(s, lead) && i < |s.servers| && LearnReq(q, v) in s.net
    ensures EffectFrom(s, lead, i, 0, DeliverLearnEffect(s.servers[i], i, q, v))
  {
    assert MessageFrom(s, lead, LearnReq(q, v)) && BatchFrom(s, lead, s.servers[i].Decided());
    LearnDecides(s.servers[i], q, v);
    BatchIsFrom(s, lead, i, map[q := v]);
    DecidingFrom(s, lead, i, 0, DeliverLearnEffect(s.servers[i], i, q, v));
  }

  lemma HeartbeatFrom(c: Cell, s: State, lead: nat, i: nat, view: nat, done: seq<int>, decided: map<int, string>)
    requires Stable(s, lead) && i < |s.servers| && BatchFrom(s, lead, decided)
    ensures EffectFrom(s, lead, i, 0, DeliverHeartbeatEffect(c, s.servers[i], view, done, decided))
    ensures EffectFrom(s, lead, i, 0, Sends(DecideAll(s.servers[i], decided), {}))
  {
    var r := s.servers[i];
    assert BatchFrom(s, lead, r.Decided());
    HeartbeatDecides(r, Owner(view, c.n), view, done, decided);
    BatchDecides(r, decided);
    BatchIsFrom(s, lead, i, decided);
    DecidingFrom(s, lead, i, 0, DeliverHeartbeatEffect(c, r, view, done, decided));
    DecidingFrom(s, lead, i, 0, Sends(DecideAll(r, decided), {}));
  }

  lemma IdleFrom(c: Cell, s: State, lead: nat, t: Step)
    requires Stable(s, lead) && Enabled(c, s, t) && IsIdle(t) && !t.FinishLearn?
    ensures EffectFrom(s, lead, t.i, SlotOf(t), EffectOf(c, s, t))
  {
    var r, e := s.servers[t.i], EffectOf(c, s, t);
    IdleTouchesNoSlot(c, s, t);
    assert BatchFrom(s, lead, r.Decided()) && e.server.Decided() == r.Decided();
    if t.AnswerPrepare? || t.AnswerAccept? {
      assert ProposerFrom(s, lead, t.i, t.q, s.proposers[(t.i, t.q)]);
      ProposingFrom(s, lead, t.i, t.q, e);
    } else {
      DecidingFrom(s, lead, t.i, SlotOf(t), e);
    }
  }

  ghost predicate SameView(s: State, v: nat) {
    forall j :: 0 <= j < |s.servers| ==> s.servers[j].view == v
  }

  /** A proposer of the leader ends only after the leader executed Learn for the slot. */
  ghost predicate SelfDelivered(s: State, t: Step) {
    t.FinishLearn? ==> Learned(t.i, t.q) in s.log
  }

  lemma StepStable(c: Cell, s: State, t: Step, v: nat)
    requires c.n >= 2 && Basic(c, s) && SameView(s, v) && Stable(s, Owner(v, c.n)) && Enabled(c, s, t) && SelfDelivered(s, t)
    ensures Stable(Apply(c, s, t), Owner(v, c.n))
  {
    StepFrom(c, s, Owner(v, c.n), t, v);
    CommitFrom(s, Owner(v, c.n), t.i, SlotOf(t), EffectOf(c, s, t));
  }

  lemma StepFrom(c: Cell, s: State, lead: nat, t: Step, v: nat)
    requires c.n >= 2 && Basic(c, s) && SameView(s, v) && lead == Owner(v, c.n) && Stable(s, lead)
    requires Enabled(c, s, t) && SelfDelivered(s, t)
    ensures EffectFrom(s, lead, t.i, SlotOf(t), EffectOf(c, s, t))
  {
    match t {
      case CallStart(i, q, x) => StartFrom(c, s, lead, i, q, x);
      case PassOn(i, q, x) => StartFrom(c, s, lead, i, q, x);
      case ArriveForward(i, q, x) => StartFrom(c, s, lead, i, q, x);
      case Begin(i, q, x, view) => BeginFrom(c, s, lead, i, q, x, view);
      case FinishPrepare(i, q) =>
        assert ProposerAt(c, s, i, q);
        FinishPrepareFrom(c, s, lead, i, q);
      case FinishAccept(i, q) => FinishAcceptFrom(c, s, lead, i, q);
      case FinishLearn(i, q) =>
        assert LearnedOk(s, Learned(i, q));
        TaughtFrom(s, lead, i, q);
      case _ =>
        if IsIdle(t) {
          IdleFrom(c, s, lead, t);
        } else {
          DeliveryFrom(c, s, lead, t);
        }
    }
  }

  predicate IsDelivery(t: Step) {
    t.DeliverPrepare? || t.DeliverAccept? || t.DeliverLearn? || t.SendHeartbeat? || t.DeliverHeartbeat? || t.AnswerHeartbeat?
  }

  lemma DeliveryFrom(c: Cell, s: State, lead: nat, t: Step)
    requires Stable(s, lead) && Enabled(c, s, t) && IsDelivery(t)
    ensures EffectFrom(s, lead, t.i, 0, EffectOf(c, s, t))
  {
    match t {
      case DeliverPrepare(i, q, prop, view) => DeliverFrom(c, s, lead, i, q, prop, view, "");
      case DeliverAccept(i, q, view, x) => DeliverFrom(c, s, lead, i, q, 0, view, x);
      case DeliverLearn(i, q, x) => LearnFrom(s, lead, i, q, x);
      case SendHeartbeat(i, to) =>
        assert BatchFrom(s, lead, s.servers[i].Decided());
        DecidingFrom(s, lead, i, 0, EffectOf(c, s, t));
      case DeliverHeartbeat(i, view, done, decided) =>
        assert MessageFrom(s, lead, HeartbeatReq(view, done, decided));
        HeartbeatFrom(c, s, lead, i, view, done, decided);
      case AnswerHeartbeat(i, decided) =>
        assert MessageFrom(s, lead, HeartbeatAns(i, decided));
        HeartbeatFrom(c, s, lead, i, 0, [], decided);
    }
  }

  lemma {:induction false} SegmentStable(c: Cell, states: seq<State>, steps: seq<Step>, v: nat, k: nat)
    requires c.n >= 2 && Segment(c, states, steps) && k < |states|
    requires Basic(c, states[0]) && Stable(states[0], Owner(v, c.n))
    requires forall m :: 0 <= m < |states| ==> SameView(states[m], v)
    requires forall m :: 0 <= m < |steps| ==> SelfDelivered(states[m], steps[m])
    ensures Basic(c, states[k]) && Stable(states[k], Owner(v, c.n))
  {
    hide Enabled, Apply, Basic, Stable, SameView, SelfDelivered;
    if k == 0 {
    } else {
      SegmentStable(c, states, steps, v, k - 1);
      assert Enabled(c, states[k - 1], steps[k - 1]) && SelfDelivered(states[k - 1], steps[k - 1]);
      StepBasic(c, states[k - 1], steps[k - 1]);
      StepStable(c, states[k - 1], steps[k - 1], v);
    }
  }

  /** Agreement, as written, for as long as one view lasts: with concurrent `Start`s for a slot, forwarded requests, lost
      RPCs, slots out of order and heartbeats. The segment may begin wherever the leader knows all that is decided. */
  lemma StableViewAgreement(c: Cell, states: seq<State>, steps: seq<Step>, v: nat, k: nat)
    requires c.n >= 2 && Segment(c, states, steps) && k < |states|
    requires Basic(c, states[0]) && Stable(states[0], Owner(v, c.n))
    requires forall m :: 0 <= m < |states| ==> SameView(states[m], v)
    requires forall m :: 0 <= m < |steps| ==> SelfDelivered(states[m], steps[m])
    ensures Consistent(states[k])
  {
    SegmentStable(c, states, steps, v, k);
    var s, lead := states[k], Owner(v, c.n);
    forall i: nat, j: nat, q | DecideBoth(s, i, j, q)
      ensures s.servers[i].Decided()[q] == s.servers[j].Decided()[q]
    {
      assert BatchFrom(s, lead, s.servers[i].Decided()) && BatchFrom(s, lead, s.servers[j].Decided());
    }
  }

  /** In particular, from the start of the cell. */
  lemma FirstViewAgreement(c: Cell, states: seq<State>, steps: seq<Step>, k: nat)
    requires c.n >= 2 && Run(c, states, steps) && k < |states|
    requires forall m :: 0 <= m < |states| ==> SameView(states[m], 0)
    requires forall m :: 0 <= m < |steps| ==> SelfDelivered(states[m], steps[m])
    ensures Consistent(states[k])
  {
    InitBasic(c);
    assert Stable(Init(c), Owner(0, c.n));
    StableViewAgreement(c, states, steps, 0, k);
  }
}
