/** What every step of the cell keeps with no assumption on elections: any number of them may overlap. */
module Basics {
  import opened PaxosTypes
  import opened Handlers
  import opened Tallies
  import opened Cluster
  import opened Progress

  /** A proposer works on answers that were sent, to requests it made. */
  ghost predicate PhaseOk(c: Cell, q: int, p: Proposer, net: set<Message>) {
    match p.phase
    case Preparing(prop, a) =>
      && |a| <= c.n
      && forall k :: 0 <= k < |a| && a[k].Some? ==> PrepareAns(q, prop, p.view, k, a[k].value) in net
    case Accepting(x, a) =>
      && |a| <= c.n && AcceptReq(q, p.view, x) in net
      && forall k :: 0 <= k < |a| && a[k].Some? ==> AcceptAns(q, p.view, x, k, a[k].value) in net
    case Learning(x) => LearnReq(q, x) in net
  }

  ghost predicate ProposerAt(c: Cell, s: State, i: nat, q: int)
    requires (i, q) in s.proposers
  {
    i < |s.servers| && q in s.servers[i].slots && PhaseOk(c, q, s.proposers[(i, q)], s.net)
  }

  ghost predicate LearnedOk(s: State, e: Event) {
    e.Learned? ==>
      && e.server < |s.servers| && e.q in s.servers[e.server].slots
      && s.servers[e.server].slots[e.q].status == DECIDED
  }

  ghost predicate Basic(c: Cell, s: State) {
    && AllOk(c, s)
    && (forall i, q :: (i, q) in s.proposers ==> ProposerAt(c, s, i, q))
    && forall e :: e in s.log ==> LearnedOk(s, e)
  }

  // ---- One step ----

  /** A step moves its own server forward, and commits no vote below a view that server has reached. */
  ghost predicate EffectMoves(s: State, i: nat, e: Effect)
    requires i < |s.servers|
  {
    && Moves(s.servers[i], e.server)
    && forall ev :: ev in e.events && ev.Voted? ==> ev.server == i && s.servers[i].view <= ev.view
  }

  lemma CommitMoves(c: Cell, s: State, i: nat, q: int, e: Effect)
    requires AllOk(c, s) && i < c.n && EffectMoves(s, i, e)
    ensures var s' := Commit(s, i, q, e); AllOk(c, s') && Forward(s, s')
  {
    var s' := Commit(s, i, q, e);
    forall j | 0 <= j < c.n
      ensures ServerForward(s.servers[j], s'.servers[j]) && ServerOk(s'.servers[j])
    {
      assert ServerOk(s.servers[j]);
      assert j != i ==> s'.servers[j] == s.servers[j];
    }
    assert ServerForward(s.servers[i], s'.servers[i]);
  }

  /** What a step adds to proposers and history is sound. */
  ghost predicate EffectBasic(c: Cell, s: State, i: nat, q: int, e: Effect)
    requires i < |s.servers|
  {
    && EffectMoves(s, i, e)
    && (e.proposer.Set? ==> q in e.server.slots && PhaseOk(c, q, e.proposer.value, s.net + e.sent))
    && forall ev :: ev in e.events && ev.Learned? ==>
         ev.server == i && ev.q in e.server.slots && e.server.slots[ev.q].status == DECIDED
  }

  lemma CommitBasic(c: Cell, s: State, i: nat, q: int, e: Effect)
    requires Basic(c, s) && i < c.n && EffectBasic(c, s, i, q, e)
    ensures var s' := Commit(s, i, q, e); Basic(c, s') && Forward(s, s')
  {
    var s' := Commit(s, i, q, e);
    CommitMoves(c, s, i, q, e);
    assert s'.servers[i] == e.server;
    forall j, k | (j, k) in s'.proposers
      ensures ProposerAt(c, s', j, k)
    {
      if (j, k) in s.proposers {
        assert ProposerAt(c, s, j, k);
        assert ServerForward(s.servers[j], s'.servers[j]);
      }
    }
    forall ev | ev in s'.log
      ensures LearnedOk(s', ev)
    {
      if ev in s.log && ev.Learned? {
        assert LearnedOk(s, ev);
        assert ServerForward(s.servers[ev.server], s'.servers[ev.server]);
      }
    }
  }

  lemma FinishPrepareMoves(c: Cell, r: Server, q: int, p: Proposer)
    requires q in r.slots && p.phase.Preparing?
    ensures Moves(r, FinishPrepareEffect(c, r, q, p).server)
  {
    var r1 := r.(slots := r.slots[q := r.slots[q].(highestN := TallyOf(c, r, q, p).highestN)]);
    OneSlotMoves(r, q, r1.slots[q]);
    SameSlotsMove(r1, FinishPrepareEffect(c, r, q, p).server);
    MovesOn(r, r1, FinishPrepareEffect(c, r, q, p).server);
  }

  lemma StartsMove(r: Server, i: nat, q: int, v: string)
    ensures Moves(r, StartEffect(r, i, q, v).server) && Moves(r, CallStartEffect(r, i, q, v).server)
    ensures Moves(r, PassOnEffect(r, i, q, v).server)
  {
  }

  lemma BeginBasic(c: Cell, s: State, i: nat, q: int, v: string, view: nat)
    requires AllOk(c, s) && i < c.n && q in s.servers[i].slots
    ensures EffectBasic(c, s, i, q, BeginEffect(c, s.servers[i], q, v, view))
  {
  }

  lemma FinishPrepareBasic(c: Cell, s: State, i: nat, q: int)
    requires AllOk(c, s) && i < c.n && CanFinishPrepare(c, s, i, q)
    ensures EffectBasic(c, s, i, q, FinishPrepareEffect(c, s.servers[i], q, s.proposers[(i, q)]))
  {
    FinishPrepareMoves(c, s.servers[i], q, s.proposers[(i, q)]);
    hide Moves;
  }

  lemma FinishAcceptBasic(c: Cell, s: State, i: nat, q: int)
    requires AllOk(c, s) && i < c.n && CanFinishAccept(c, s, i, q) && ProposerAt(c, s, i, q)
    ensures EffectBasic(c, s, i, q, FinishAcceptEffect(c, s.servers[i], q, s.proposers[(i, q)]))
  {
  }

  lemma AnswersBasic(c: Cell, s: State, t: Step)
    requires AllOk(c, s) && Enabled(c, s, t) && (t.AnswerPrepare? || t.AnswerAccept?) && ProposerAt(c, s, t.i, t.q)
    ensures EffectBasic(c, s, t.i, t.q, EffectOf(c, s, t))
  {
  }

  lemma DeliverAcceptBasic(c: Cell, s: State, i: nat, q: int, view: nat, v: string)
    requires AllOk(c, s) && i < c.n
    ensures EffectBasic(c, s, i, 0, DeliverAcceptEffect(s.servers[i], i, q, view, v))
  {
    AcceptMoves(s.servers[i], q, view, v);
  }

  lemma ElectionBasic(c: Cell, s: State, i: nat, x: nat, el: Election)
    requires AllOk(c, s) && i < c.n
    ensures EffectBasic(c, s, i, 0, FinishElectionEffect(s.servers[i], i, x, el))
  {
    SameSlotsMove(s.servers[i], FinishElectionEffect(s.servers[i], i, x, el).server);
    hide Moves;
  }

  lemma StepMeansBasic(c: Cell, s: State, t: Step)
    requires Basic(c, s) && Enabled(c, s, t)
    ensures EffectBasic(c, s, t.i, SlotOf(t), EffectOf(c, s, t))
  {
    var r := s.servers[t.i];
    match t {
      case Begin(i, q, v, view) => BeginBasic(c, s, i, q, v, view);
      case AnswerPrepare(i, q, a) => AnswersBasic(c, s, t);
      case FinishPrepare(i, q) => FinishPrepareBasic(c, s, i, q);
      case AnswerAccept(i, q, a) => AnswersBasic(c, s, t);
      case FinishAccept(i, q) => FinishAcceptBasic(c, s, i, q);
      case DeliverAccept(i, q, view, v) => DeliverAcceptBasic(c, s, i, q, view, v);
      case DeliverLearn(i, q, v) => LearnMoves(r, q, v);
      case FinishElection(i, x) => ElectionBasic(c, s, i, x, s.elections[(i, x)]);
      case _ => QuietBasic(c, s, t);
    }
  }

  /** The steps that leave proposers and history alone, or add only an acknowledgement. */
  lemma QuietBasic(c: Cell, s: State, t: Step)
    requires Basic(c, s) && Enabled(c, s, t)
    requires t.CallStart? || t.PassOn? || t.ArriveForward? || t.DeliverPrepare? || t.FinishLearn? || t.SendHeartbeat?
             || t.DeliverHeartbeat? || t.AnswerHeartbeat? || t.Detect? || t.DeliverElect? || t.AnswerElect?
    ensures EffectBasic(c, s, t.i, SlotOf(t), EffectOf(c, s, t))
  {
    var r := s.servers[t.i];
    match t {
      case CallStart(i, q, v) => StartsMove(r, i, q, v);
      case PassOn(i, q, v) => StartsMove(r, i, q, v);
      case ArriveForward(i, q, v) => StartsMove(r, i, q, v);
      case DeliverPrepare(i, q, prop, view) => PrepareMoves(c.fix, r, q, prop, view);
      case DeliverHeartbeat(i, view, done, decided) => HeartbeatMoves(r, Owner(view, c.n), view, done, decided);
      case AnswerHeartbeat(i, decided) => DecideAllMoves(r, decided);
      case Detect(i, x) => DetectMoves(r);
      case DeliverElect(i, view) => ElectMoves(r, view);
      case _ =>
    }
  }

  lemma StepBasic(c: Cell, s: State, t: Step)
    requires Basic(c, s) && Enabled(c, s, t)
    ensures Basic(c, Apply(c, s, t)) && Forward(s, Apply(c, s, t))
  {
    StepMeansBasic(c, s, t);
    CommitBasic(c, s, t.i, SlotOf(t), EffectOf(c, s, t));
  }

  // ---- All runs ----

  lemma InitBasic(c: Cell)
    ensures Basic(c, Init(c))
  {
  }

  lemma {:induction false} SegmentBasic(c: Cell, states: seq<State>, steps: seq<Step>, k: nat)
    requires Segment(c, states, steps) && Basic(c, states[0]) && k < |states|
    ensures Basic(c, states[k])
  {
    hide Basic, Apply, Enabled;
    if k == 0 {
    } else {
      SegmentBasic(c, states, steps, k - 1);
      StepBasic(c, states[k - 1], steps[k - 1]);
    }
  }

  lemma RunBasic(c: Cell, states: seq<State>, steps: seq<Step>, k: nat)
    requires Run(c, states, steps) && k < |states|
    ensures Basic(c, states[k])
  {
    hide Basic, Apply, Enabled;
    InitBasic(c);
    SegmentBasic(c, states, steps, k);
  }

  /** Acceptor state only moves forward: no server's view, highest accepted slot, prepared number or accepted number
      ever decreases, no decided value changes, and no message or history is lost. */
  ghost predicate Later(s: State, s': State) {
    && |s.servers| == |s'.servers|
    && (forall j :: 0 <= j < |s.servers| ==> ServerForward(s.servers[j], s'.servers[j]))
    && s.net <= s'.net && s.log <= s'.log
  }

  lemma LaterOn(a: State, b: State, d: State)
    requires Later(a, b) && Forward(b, d)
    ensures Later(a, d)
  {
    forall j | 0 <= j < |a.servers|
      ensures ServerForward(a.servers[j], d.servers[j])
    {
      assert ServerForward(a.servers[j], b.servers[j]) && ServerForward(b.servers[j], d.servers[j]);
    }
  }

  lemma {:induction false} OnlyForward(c: Cell, states: seq<State>, steps: seq<Step>, j: nat, k: nat)
    requires Run(c, states, steps) && j <= k < |states|
    ensures Later(states[j], states[k])
    ensures AllOk(c, states[k])
    decreases k - j
  {
    RunBasic(c, states, steps, k);
    hide Enabled, Apply;
    if j == k {
      assert Later(states[k], states[k]);
    } else {
      OnlyForward(c, states, steps, j, k - 1);
      RunBasic(c, states, steps, k - 1);
      StepBasic(c, states[k - 1], steps[k - 1]);
      LaterOn(states[j], states[k - 1], states[k]);
    }
  }
}
