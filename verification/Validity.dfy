/** Every accepted or decided value was asked for by some `Start` for the same slot (as written, and under any repairs). */
module Validity {
  import opened PaxosTypes
  import opened Handlers
  import opened Tallies
  import opened Cluster
  import opened Progress
  import opened Basics

  ghost predicate Asked(net: set<Message>, q: int, x: string) {
    x != "" && StartCall(q, x) in net
  }

  ghost predicate BlankOrAsked(net: set<Message>, q: int, x: string) {
    x == "" || Asked(net, q, x)
  }

  ghost predicate SlotValid(net: set<Message>, q: int, slot: Slot) {
    BlankOrAsked(net, q, slot.vA) && (slot.status == DECIDED ==> Asked(net, q, slot.value))
  }

  ghost predicate ServerValid(net: set<Message>, r: Server) {
    && (forall q :: q in r.slots ==> SlotValid(net, q, r.slots[q]))
    && forall v, q :: (v, q) in r.proposed ==> Asked(net, q, r.proposed[(v, q)])
  }

  ghost predicate BatchValid(net: set<Message>, decided: map<int, string>) {
    forall q :: q in decided ==> Asked(net, q, decided[q])
  }

  ghost predicate MessageValid(net: set<Message>, m: Message) {
    match m
    case Redirect(_, q, v) => Asked(net, q, v)
    case Forwarded(q, v) => Asked(net, q, v)
    case Launch(_, q, v, _) => Asked(net, q, v)
    case PrepareAns(q, _, _, _, r) => BlankOrAsked(net, q, r.vA) && BlankOrAsked(net, q, r.value)
    case AcceptReq(q, _, v) => Asked(net, q, v)
    case LearnReq(q, v) => Asked(net, q, v)
    case HeartbeatReq(_, _, decided) => BatchValid(net, decided)
    case HeartbeatAns(_, decided) => BatchValid(net, decided)
    case _ => true
  }

  ghost predicate ProposerValid(net: set<Message>, q: int, p: Proposer) {
    Asked(net, q, p.v) &&
    match p.phase
    case Preparing(_, _) => true
    case Accepting(x, _) => Asked(net, q, x)
    case Learning(x) => Asked(net, q, x)
  }

  ghost predicate Valid(s: State) {
    && (forall j :: 0 <= j < |s.servers| ==> ServerValid(s.net, s.servers[j]))
    && (forall m :: m in s.net ==> MessageValid(s.net, m))
    && forall i, q :: (i, q) in s.proposers ==> ProposerValid(s.net, q, s.proposers[(i, q)])
  }

  /** The parts of a step that carry values. */
  ghost predicate EffectValid(net: set<Message>, q: int, e: Effect) {
    var net' := net + e.sent;
    && ServerValid(net', e.server)
    && (forall m :: m in e.sent ==> MessageValid(net', m))
    && (e.proposer.Set? ==> ProposerValid(net', q, e.proposer.value))
  }

  lemma MessageStaysValid(net: set<Message>, net': set<Message>, m: Message)
    requires net <= net' && MessageValid(net, m)
    ensures MessageValid(net', m)
  {
  }

  lemma CommitValid(s: State, i: nat, q: int, e: Effect)
    requires i < |s.servers| && Valid(s) && EffectValid(s.net, q, e)
    ensures Valid(Commit(s, i, q, e))
  {
    var s' := Commit(s, i, q, e);
    forall m | m in s'.net
      ensures MessageValid(s'.net, m)
    {
      if m in s.net {
        MessageStaysValid(s.net, s'.net, m);
      }
    }
    forall j | 0 <= j < |s'.servers|
      ensures ServerValid(s'.net, s'.servers[j])
    {
      if j != i {
        assert ServerValid(s.net, s.servers[j]);
      }
    }
    forall j, k | (j, k) in s'.proposers
      ensures ProposerValid(s'.net, k, s'.proposers[(j, k)])
    {
      if (j, k) in s.proposers {
        assert ProposerValid(s.net, k, s.proposers[(j, k)]);
      }
    }
  }

  // ---- What a Prepare round can choose ----

  ghost predicate AnswersValid(net: set<Message>, q: int, a: seq<Option<PrepareReply>>) {
    forall k :: 0 <= k < |a| && a[k].Some? ==>
      BlankOrAsked(net, q, a[k].value.vA) && BlankOrAsked(net, q, a[k].value.value)
  }

  lemma {:induction false} RoundChoosesAskedValues(
    c: Cell, net: set<Message>, q: int, v: string, h: int, a: seq<Option<PrepareReply>>)
    requires c.n >= 2 && Asked(net, q, v) && AnswersValid(net, q, a)
    ensures var t := TallyPrepare(c.fix, c.n, v, h, a);
            BlankOrAsked(net, q, t.va) && (t.decided.Some? ==> Asked(net, q, t.decided.value))
  {
    if a == [] {
    } else {
      RoundChoosesAskedValues(c, net, q, v, h, a[..|a| - 1]);
    }
    DecidedWasReported(c.fix, c.n, v, h, a);
  }

  // ---- Steps ----

  lemma NetGrows(net: set<Message>, net': set<Message>, r: Server)
    requires net <= net' && ServerValid(net, r)
    ensures ServerValid(net', r)
  {
  }

  lemma SlotsOnly(net: set<Message>, r: Server, q: int, slot: Slot)
    requires ServerValid(net, r) && SlotValid(net, q, slot)
    ensures ServerValid(net, r.(slots := r.slots[q := slot]))
  {
  }

  /** Only slot `q` changes, and its new value is valid. */
  lemma OneSlotValid(net: set<Message>, net': set<Message>, r: Server, r1: Server, q: int)
    requires net <= net' && ServerValid(net, r) && r1.proposed == r.proposed
    requires q in r1.slots && r1.slots == r.slots[q := r1.slots[q]]
    requires var slot, was := r1.slots[q], Touched(r, q);
      && (slot.vA == was.vA || Asked(net, q, slot.vA))
      && (slot.status == DECIDED ==> Asked(net, q, slot.value) || (was.status == DECIDED && was.value == slot.value))
    ensures ServerValid(net', r1)
  {
    assert q in r.slots ==> SlotValid(net, q, r.slots[q]);
    NetGrows(net, net', r);
  }

  lemma StartValid(net: set<Message>, r: Server, i: nat, q: int, v: string)
    requires ServerValid(net, r) && v != ""
    ensures Asked(net, q, v) ==> EffectValid(net, 0, StartEffect(r, i, q, v))
    ensures EffectValid(net, 0, CallStartEffect(r, i, q, v))
    ensures Asked(net, q, v) ==> EffectValid(net, 0, PassOnEffect(r, i, q, v))
  {
    var one, two, three := StartEffect(r, i, q, v), CallStartEffect(r, i, q, v), PassOnEffect(r, i, q, v);
    if q < r.lowestSlot {
      NetGrows(net, net + one.sent, r);
      NetGrows(net, net + two.sent, r);
    } else {
      OneSlotValid(net, net + one.sent, r, one.server, q);
      OneSlotValid(net, net + two.sent, r, two.server, q);
    }
    OneSlotValid(net, net + three.sent, r, three.server, q);
    hide ServerValid;
  }

  lemma AcceptPhaseValid(fix: Repairs, net: set<Message>, r: Server, q: int, p: Proposer, x: string)
    requires ServerValid(net, r) && Asked(net, q, p.v) && Asked(net, q, x)
    ensures EffectValid(net, q, AcceptPhase(fix, r, q, p, x))
  {
  }

  lemma BeginValid(c: Cell, net: set<Message>, r: Server, q: int, v: string, view: nat)
    requires q in r.slots && ServerValid(net, r) && Asked(net, q, v)
    ensures EffectValid(net, q, BeginEffect(c, r, q, v, view))
  {
    AcceptPhaseValid(c.fix, net, r, q, Proposer(v, view, Accepting(v, [])), v);
  }

  lemma PrepareValid(c: Cell, net: set<Message>, r: Server, i: nat, q: int, prop: int, view: nat)
    requires ServerValid(net, r)
    ensures EffectValid(net, 0, DeliverPrepareEffect(c, r, i, q, prop, view))
  {
    var e := DeliverPrepareEffect(c, r, i, q, prop, view);
    if q < r.lowestSlot {
      NetGrows(net, net + e.sent, r);
    } else {
      assert SlotValid(net, q, Touched(r, q));
      OneSlotValid(net, net + e.sent, r, e.server, q);
    }
    hide ServerValid;
  }

  lemma AcceptValid(net: set<Message>, r: Server, i: nat, q: int, view: nat, v: string)
    requires ServerValid(net, r) && Asked(net, q, v)
    ensures EffectValid(net, 0, DeliverAcceptEffect(r, i, q, view, v))
  {
    var e := DeliverAcceptEffect(r, i, q, view, v);
    if q < r.lowestSlot {
      NetGrows(net, net + e.sent, r);
    } else {
      OneSlotValid(net, net + e.sent, r, e.server, q);
    }
    hide ServerValid;
  }

  lemma LearnValid(net: set<Message>, r: Server, i: nat, q: int, v: string)
    requires ServerValid(net, r) && Asked(net, q, v)
    ensures EffectValid(net, 0, DeliverLearnEffect(r, i, q, v))
  {
    var e := DeliverLearnEffect(r, i, q, v);
    if q < r.lowestSlot {
      NetGrows(net, net + e.sent, r);
    } else {
      OneSlotValid(net, net + e.sent, r, e.server, q);
    }
    hide ServerValid;
  }

  lemma CopyValid(net: set<Message>, r: Server, decided: map<int, string>)
    requires ServerValid(net, r) && BatchValid(net, decided)
    ensures ServerValid(net, DecideAll(r, decided))
  {
  }

  lemma CopiedValid(net: set<Message>, r: Server)
    requires ServerValid(net, r)
    ensures EffectValid(net, 0, Sends(r, {}))
  {
    assert net + {} == net;
  }

  lemma HeartbeatValid(c: Cell, net: set<Message>, r: Server, view: nat, done: seq<int>, decided: map<int, string>)
    requires ServerValid(net, r) && BatchValid(net, decided)
    ensures EffectValid(net, 0, DeliverHeartbeatEffect(c, r, view, done, decided))
  {
    var r1 := Adopt(r, view).(done := done, missedHeartbeats := 0);
    CopyValid(net, r1, decided);
    var e := DeliverHeartbeatEffect(c, r, view, done, decided);
    assert BatchValid(net, r.Decided() - decided.Keys);
    NetGrows(net, net + e.sent, e.server);
  }

  lemma FinishPrepareValid(c: Cell, net: set<Message>, r: Server, q: int, p: Proposer)
    requires c.n >= 2 && q in r.slots && p.phase.Preparing?
    requires ServerValid(net, r) && Asked(net, q, p.v) && AnswersValid(net, q, p.phase.prepares)
    ensures EffectValid(net, q, FinishPrepareEffect(c, r, q, p))
  {
    RoundChoosesAskedValues(c, net, q, p.v, r.slots[q].highestN, p.phase.prepares);
    var t := TallyOf(c, r, q, p);
    var r1 := r.(slots := r.slots[q := r.slots[q].(highestN := t.highestN)]);
    SlotsOnly(net, r, q, r1.slots[q]);
    AcceptPhaseValid(c.fix, net, r1, q, p, if t.va == "" then p.v else t.va);
    NetGrows(net, net + FinishPrepareEffect(c, r, q, p).sent, r1);
  }

  lemma StepValid(c: Cell, s: State, t: Step)
    requires c.n >= 2 && Basic(c, s) && Valid(s) && Enabled(c, s, t)
    ensures Valid(Apply(c, s, t))
  {
    hide StartEffect, CallStartEffect, PassOnEffect, BeginEffect, DeliverPrepareEffect, FinishPrepareEffect;
    hide DeliverAcceptEffect, DeliverLearnEffect, DeliverHeartbeatEffect, EffectValid, ServerValid;
    var r := s.servers[t.i];
    assert ServerValid(s.net, r);
    match t {
      case CallStart(i, q, v) => StartValid(s.net, r, i, q, v);
      case PassOn(i, q, v) =>
        assert MessageValid(s.net, Redirect(i, q, v));
        StartValid(s.net, r, i, q, v);
      case ArriveForward(i, q, v) =>
        assert MessageValid(s.net, Forwarded(q, v));
        StartValid(s.net, r, i, q, v);
      case Begin(i, q, v, view) =>
        assert MessageValid(s.net, Launch(i, q, v, view));
        BeginValid(c, s.net, r, q, v, view);
      case DeliverPrepare(i, q, prop, view) => PrepareValid(c, s.net, r, i, q, prop, view);
      case FinishPrepare(i, q) =>
        AnswersInNet(c, s, i, q);
        FinishPrepareValid(c, s.net, r, q, s.proposers[(i, q)]);
      case DeliverAccept(i, q, view, v) =>
        assert MessageValid(s.net, AcceptReq(q, view, v));
        AcceptValid(s.net, r, i, q, view, v);
      case DeliverLearn(i, q, v) =>
        assert MessageValid(s.net, LearnReq(q, v));
        LearnValid(s.net, r, i, q, v);
      case DeliverHeartbeat(i, view, done, decided) =>
        assert MessageValid(s.net, HeartbeatReq(view, done, decided));
        HeartbeatValid(c, s.net, r, view, done, decided);
      case AnswerHeartbeat(i, decided) =>
        assert MessageValid(s.net, HeartbeatAns(i, decided));
        CopyValid(s.net, r, decided);
        CopiedValid(s.net, DecideAll(r, decided));
      case _ => OtherStepValid(c, s, t);
    }
    CommitValid(s, t.i, SlotOf(t), EffectOf(c, s, t));
  }

  lemma AnswersInNet(c: Cell, s: State, i: nat, q: int)
    requires Valid(s) && |s.servers| == c.n && (i, q) in s.proposers && ProposerAt(c, s, i, q)
    requires s.proposers[(i, q)].phase.Preparing?
    ensures AnswersValid(s.net, q, s.proposers[(i, q)].phase.prepares)
  {
    var p := s.proposers[(i, q)];
    forall k | 0 <= k < |p.phase.prepares| && p.phase.prepares[k].Some?
      ensures MessageValid(s.net, PrepareAns(q, p.phase.prop, p.view, k, p.phase.prepares[k].value))
    {
    }
  }

  /** A step that decides and accepts nothing, and passes on at most what its server has decided. */
  lemma OtherStepValid(c: Cell, s: State, t: Step)
    requires Valid(s) && Enabled(c, s, t) && (IsIdle(t) || t.FinishAccept? || t.SendHeartbeat?)
    ensures EffectValid(s.net, SlotOf(t), EffectOf(c, s, t))
  {
    var r, e := s.servers[t.i], EffectOf(c, s, t);
    assert ServerValid(s.net, r);
    if t.FinishAccept? {
      assert ProposerValid(s.net, t.q, s.proposers[(t.i, t.q)]);
      FinishAcceptValid(c, s.net, r, t.q, s.proposers[(t.i, t.q)]);
    } else if t.SendHeartbeat? {
      NetGrows(s.net, s.net + e.sent, r);
    } else {
      if t.AnswerPrepare? || t.AnswerAccept? {
        assert ProposerValid(s.net, t.q, s.proposers[(t.i, t.q)]);
      }
      IdleTouchesNoSlot(c, s, t);
      IdleValid(s.net, r, SlotOf(t), e);
    }
  }

  lemma FinishAcceptValid(c: Cell, net: set<Message>, r: Server, q: int, p: Proposer)
    requires ServerValid(net, r) && p.phase.Accepting? && ProposerValid(net, q, p)
    ensures EffectValid(net, q, FinishAcceptEffect(c, r, q, p))
  {
    NetGrows(net, net + FinishAcceptEffect(c, r, q, p).sent, r);
    hide ServerValid;
  }

  lemma IdleValid(net: set<Message>, r: Server, q: int, e: Effect)
    requires ServerValid(net, r) && TouchesNoSlot(r, e)
    requires e.proposer.Set? ==> ProposerValid(net, q, e.proposer.value)
    ensures EffectValid(net, q, e)
  {
    NetGrows(net, net + e.sent, r);
  }

  lemma {:induction false} RunValid(c: Cell, states: seq<State>, steps: seq<Step>, k: nat)
    requires c.n >= 2 && Run(c, states, steps) && k < |states|
    ensures Valid(states[k])
  {
    hide Enabled, Apply, Valid, Basic, Init;
    if k == 0 {
      InitValid(c);
    } else {
      RunValid(c, states, steps, k - 1);
      RunBasic(c, states, steps, k - 1);
      StepValid(c, states[k - 1], steps[k - 1]);
    }
  }

  lemma InitValid(c: Cell)
    ensures Valid(Init(c))
  {
  }

  ghost predicate StartedBefore(steps: seq<Step>, k: nat, q: int, x: string) {
    exists m, i :: 0 <= m < k && m < |steps| && steps[m] == CallStart(i, q, x)
  }

  lemma {:induction false} AskedMeansStarted(c: Cell, states: seq<State>, steps: seq<Step>, k: nat, q: int, x: string)
    requires Run(c, states, steps) && k < |states| && StartCall(q, x) in states[k].net
    ensures StartedBefore(steps, k, q, x)
  {
    if k == 0 {
    } else {
      assert Enabled(c, states[k - 1], steps[k - 1]);
      if StartCall(q, x) in states[k - 1].net {
        AskedMeansStarted(c, states, steps, k - 1, q, x);
      } else {
        SentByClient(c, states[k - 1], steps[k - 1], q, x);
      }
    }
  }

  lemma SentByClient(c: Cell, s: State, t: Step, q: int, x: string)
    requires Enabled(c, s, t) && StartCall(q, x) in Apply(c, s, t).net && StartCall(q, x) !in s.net
    ensures t == CallStart(t.i, q, x)
  {
    assert StartCall(q, x) in EffectOf(c, s, t).sent;
  }

  /** Validity: what a server has accepted or decided for a slot, some client asked for, for that slot. */
  lemma ValuesWereStarted(c: Cell, states: seq<State>, steps: seq<Step>, k: nat, j: nat, q: int)
    requires c.n >= 2 && Run(c, states, steps) && k < |states| && j < |states[k].servers|
    requires q in states[k].servers[j].slots
    ensures var slot := states[k].servers[j].slots[q];
      && (slot.vA != "" ==> StartedBefore(steps, k, q, slot.vA))
      && (slot.status == DECIDED ==> slot.value != "" && StartedBefore(steps, k, q, slot.value))
  {
    RunValid(c, states, steps, k);
    var slot := states[k].servers[j].slots[q];
    assert ServerValid(states[k].net, states[k].servers[j]);
    assert SlotValid(states[k].net, q, slot);
    if slot.vA != "" {
      AskedMeansStarted(c, states, steps, k, q, slot.vA);
    }
    if slot.status == DECIDED {
      AskedMeansStarted(c, states, steps, k, q, slot.value);
    }
  }
}
