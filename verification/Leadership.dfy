/** Every step keeps the invariants of Views.dfy, and what follows from them for leaders. */
module Leadership {
  import opened PaxosTypes
  import opened Handlers
  import opened Tallies
  import opened Quorums
  import opened Cluster
  import opened Progress
  import opened Basics
  import opened Ring
  import opened Views

  ghost predicate Sound(c: Cell, s: State, i: nat, q: int, e: Effect)
    requires |s.servers| == c.n && i < c.n
  {
    EffectOnward(s, i, e) && EffectOk(c, s, i, q, e)
  }

  lemma StartStep(c: Cell, s: State, i: nat, q: int, v: string)
    requires AllOk(c, s) && i < c.n
    requires Earned(c, s, i)
    ensures Sound(c, s, i, 0, StartEffect(s.servers[i], i, q, v))
    ensures Sound(c, s, i, 0, CallStartEffect(s.servers[i], i, q, v))
    ensures Sound(c, s, i, 0, PassOnEffect(s.servers[i], i, q, v))
  {
    PlainSound(c, s, i, 0, PassOnEffect(s.servers[i], i, q, v));
    PlainSound(c, s, i, 0, StartEffect(s.servers[i], i, q, v));
    PlainSound(c, s, i, 0, CallStartEffect(s.servers[i], i, q, v));
  }

  lemma BeginStep(c: Cell, s: State, i: nat, q: int, v: string, view: nat)
    requires AllOk(c, s) && i < c.n && CanBegin(c, s, i, q, v, view) && c.oneElection
    requires Earned(c, s, i) && Led(c, s, i, view)
    ensures Sound(c, s, i, q, BeginEffect(c, s.servers[i], q, v, view))
  {
    PlainSound(c, s, i, q, BeginEffect(c, s.servers[i], q, v, view));
  }

  lemma DeliverPrepareStep(c: Cell, s: State, i: nat, q: int, prop: int, view: nat)
    requires AllOk(c, s) && i < c.n && PrepareReq(q, prop, view) in s.net
    requires Earned(c, s, i) && Led(c, s, Owner(view, c.n), view)
    ensures Sound(c, s, i, 0, DeliverPrepareEffect(c, s.servers[i], i, q, prop, view))
  {
    PrepareMoves(c.fix, s.servers[i], q, prop, view);
    PlainSound(c, s, i, 0, DeliverPrepareEffect(c, s.servers[i], i, q, prop, view));
  }

  lemma AnswerPrepareStep(c: Cell, s: State, i: nat, q: int, a: Option<PrepareReply>)
    requires AllOk(c, s) && i < c.n && CanAnswerPrepare(c, s, i, q, a)
    requires Earned(c, s, i) && ProposerAt(c, s, i, q) && ProposerOk(c, s, i, q)
    ensures Sound(c, s, i, q, AnswerPrepareEffect(s.servers[i], s.proposers[(i, q)], a))
  {
    PlainSound(c, s, i, q, AnswerPrepareEffect(s.servers[i], s.proposers[(i, q)], a));
  }

  lemma FinishPrepareStep(c: Cell, s: State, i: nat, q: int)
    requires AllOk(c, s) && i < c.n && CanFinishPrepare(c, s, i, q)
    requires Earned(c, s, i) && ProposerAt(c, s, i, q) && ProposerOk(c, s, i, q) && MessagesOk(c, s, s.net)
    ensures Sound(c, s, i, q, FinishPrepareEffect(c, s.servers[i], q, s.proposers[(i, q)]))
  {
    var p := s.proposers[(i, q)];
    var e := FinishPrepareEffect(c, s.servers[i], q, p);
    SeenIsKnown(c, s, q, p, s.servers[i].slots[q].highestN, p.phase.prepares);
    assert ViewEarned(c, s, i, e.server.view);
    FinishPrepareMoves(c, s.servers[i], q, p);
    PlainSound(c, s, i, q, e);
  }

  /** Every view a Prepare round reports is known. */
  lemma {:induction false} SeenIsKnown(c: Cell, s: State, q: int, p: Proposer, h: int, a: seq<Option<PrepareReply>>)
    requires AllOk(c, s) && MessagesOk(c, s, s.net) && p.phase.Preparing?
    requires forall k :: 0 <= k < |a| && a[k].Some? ==> PrepareAns(q, p.phase.prop, p.view, k, a[k].value) in s.net
    ensures Known(c, s, TallyPrepare(c.fix, c.n, p.v, h, a).seen)
  {
    if a == [] {
    } else {
      var last := |a| - 1;
      SeenIsKnown(c, s, q, p, h, a[..last]);
      if a[last].Some? {
        assert MessageOk(c, s, PrepareAns(q, p.phase.prop, p.view, last, a[last].value));
      }
    }
  }

  lemma DeliverAcceptStep(c: Cell, s: State, i: nat, q: int, view: nat, v: string)
    requires AllOk(c, s) && i < c.n && AcceptReq(q, view, v) in s.net
    requires Earned(c, s, i) && Led(c, s, Owner(view, c.n), view)
    ensures Sound(c, s, i, 0, DeliverAcceptEffect(s.servers[i], i, q, view, v))
  {
    AcceptMoves(s.servers[i], q, view, v);
    var e := DeliverAcceptEffect(s.servers[i], i, q, view, v);
    assert EffectOnward(s, i, e);
    EarnedStays(c, s, i, 0, e);
    VoteIsSound(c, s, i, q, view, v);
  }

  lemma VoteIsSound(c: Cell, s: State, i: nat, q: int, view: nat, v: string)
    requires AllOk(c, s) && i < c.n
    ensures var e := DeliverAcceptEffect(s.servers[i], i, q, view, v);
            MessagesOk(c, Commit(s, i, 0, e), e.sent) && EventsOk(c, Commit(s, i, 0, e), e.events)
  {
    var e := DeliverAcceptEffect(s.servers[i], i, q, view, v);
    var s' := Commit(s, i, 0, e);
    assert s'.servers[i] == e.server;
    assert e.events != [] ==> e.events == [Voted(i, q, view, v)] && Voted(i, q, view, v) in s'.log;
  }

  lemma AnswerAcceptStep(c: Cell, s: State, i: nat, q: int, a: Option<AcceptReply>)
    requires AllOk(c, s) && i < c.n && CanAnswerAccept(c, s, i, q, a)
    requires Earned(c, s, i) && ProposerAt(c, s, i, q) && ProposerOk(c, s, i, q)
    ensures Sound(c, s, i, q, AnswerAcceptEffect(s.servers[i], s.proposers[(i, q)], a))
  {
    PlainSound(c, s, i, q, AnswerAcceptEffect(s.servers[i], s.proposers[(i, q)], a));
  }

  lemma FinishAcceptStep(c: Cell, s: State, i: nat, q: int)
    requires AllOk(c, s) && i < c.n && CanFinishAccept(c, s, i, q)
    requires Earned(c, s, i) && ProposerAt(c, s, i, q) && ProposerOk(c, s, i, q)
    ensures Sound(c, s, i, q, FinishAcceptEffect(c, s.servers[i], q, s.proposers[(i, q)]))
  {
    PlainSound(c, s, i, q, FinishAcceptEffect(c, s.servers[i], q, s.proposers[(i, q)]));
  }

  lemma LearnStep(c: Cell, s: State, i: nat, q: int, v: string)
    requires AllOk(c, s) && i < c.n
    requires Earned(c, s, i)
    ensures Sound(c, s, i, 0, DeliverLearnEffect(s.servers[i], i, q, v))
  {
    LearnMoves(s.servers[i], q, v);
    var e := DeliverLearnEffect(s.servers[i], i, q, v);
    assert EffectOnward(s, i, e);
    EarnedStays(c, s, i, 0, e);
    assert Commit(s, i, 0, e).servers[i] == e.server;
  }

  lemma HeartbeatStep(c: Cell, s: State, i: nat, view: nat, done: seq<int>, decided: map<int, string>)
    requires AllOk(c, s) && i < c.n && HeartbeatReq(view, done, decided) in s.net
    requires Earned(c, s, i) && view <= s.servers[Owner(view, c.n)].view
    ensures Sound(c, s, i, 0, DeliverHeartbeatEffect(c, s.servers[i], view, done, decided))
  {
    HeartbeatMoves(s.servers[i], Owner(view, c.n), view, done, decided);
    PlainSound(c, s, i, 0, DeliverHeartbeatEffect(c, s.servers[i], view, done, decided));
  }

  lemma CopyStep(c: Cell, s: State, i: nat, decided: map<int, string>)
    requires AllOk(c, s) && i < c.n
    requires Earned(c, s, i)
    ensures Sound(c, s, i, 0, Sends(DecideAll(s.servers[i], decided), {}))
  {
    DecideAllMoves(s.servers[i], decided);
    PlainSound(c, s, i, 0, Sends(DecideAll(s.servers[i], decided), {}));
  }

  lemma SendStep(c: Cell, s: State, i: nat, to: nat)
    requires AllOk(c, s) && i < c.n && Owner(s.servers[i].view, c.n) == i
    requires Earned(c, s, i)
    ensures var r := s.servers[i]; Sound(c, s, i, 0, Sends(r, {HeartbeatReq(r.view, Repeat(r.done, to + 1), r.Decided())}))
  {
    var r := s.servers[i];
    PlainSound(c, s, i, 0, Sends(r, {HeartbeatReq(r.view, Repeat(r.done, to + 1), r.Decided())}));
  }

  lemma DetectStep(c: Cell, s: State, i: nat, x: nat)
    requires AllOk(c, s) && i < c.n && CanDetect(c, s, i, x) && c.oneElection
    requires Earned(c, s, i)
    ensures Sound(c, s, i, 0, DetectEffect(s.servers[i], x))
  {
    var r := s.servers[i];
    var e := DetectEffect(r, x);
    if Owner(r.view, c.n) != i {
      CandidacyIsNext(r.view, i, c.n);
    }
    DetectMoves(r);
    assert EffectOnward(s, i, e);
    EarnedStays(c, s, i, 0, e);
  }

  lemma DeliverElectStep(c: Cell, s: State, i: nat, view: nat)
    requires AllOk(c, s) && EventsOk(c, s, s.log) && i < c.n && ElectReq(view) in s.net && i != Owner(view, c.n)
    requires Earned(c, s, i) && MessageOk(c, s, ElectReq(view))
    ensures Sound(c, s, i, 0, DeliverElectEffect(s.servers[i], i, view))
  {
    var r := s.servers[i];
    var e := DeliverElectEffect(r, i, view);
    var s' := Commit(s, i, 0, e);
    ElectMoves(r, view);
    assert EffectOnward(s, i, e);
    CommitOnward(c, s, i, 0, e);
    EarnedStays(c, s, i, 0, e);
    assert s'.servers[i] == e.server;
    AckIsSound(c, s, s', i, view, r.highestAcceptedSeq);
    assert e.events != [] ==> s'.log[|s.log|] == Acked(i, view, r.highestAcceptedSeq);
  }

  /** What a server reports when it acknowledges a view bounds every slot it accepted below that view. */
  lemma AckIsSound(c: Cell, s: State, s': State, i: nat, view: nat, h: int)
    requires AllOk(c, s) && EventsOk(c, s, s.log) && AllOk(c, s') && i < c.n && s.servers[i].highestAcceptedSeq <= h
    requires forall e :: e in s'.log && e !in s.log ==> !e.Voted?
    requires view <= s'.servers[i].view
    ensures EventOk(c, s', Acked(i, view, h))
  {
    forall q, u: nat, v | Voted(i, q, u, v) in s'.log && u < view
      ensures q <= h
    {
      assert EventOk(c, s, Voted(i, q, u, v));
    }
  }

  lemma AnswerElectStep(c: Cell, s: State, i: nat, a: Option<ElectReply>)
    requires AllOk(c, s) && i < c.n && CanAnswerElect(c, s, i, 0, a)
    requires Earned(c, s, i) && ElectionOk(c, s, i)
    ensures Sound(c, s, i, 0, AnswerElectEffect(s.servers[i], 0, s.elections[(i, 0)], a))
  {
    var e := AnswerElectEffect(s.servers[i], 0, s.elections[(i, 0)], a);
    EarnedStays(c, s, i, 0, e);
  }

  lemma FinishElectionStep(c: Cell, s: State, i: nat)
    requires Inv(c, s) && i < c.n && (i, 0) in s.elections && |s.elections[(i, 0)].answers| == c.n
    ensures Sound(c, s, i, 0, FinishElectionEffect(s.servers[i], i, 0, s.elections[(i, 0)]))
  {
    assert Earned(c, s, i) && ElectionOk(c, s, i);
    EndsAtTarget(c, s, i);
    RejectsAreKnown(c, s, i);
    if FinishElectionEffect(s.servers[i], i, 0, s.elections[(i, 0)]).win.Some? {
      WinStep(c, s, i);
    } else {
      NoWinStep(c, s, i);
    }
  }

  /** A view that rejected a candidate is known, and it is not one the candidate could still be standing for. */
  lemma RejectsAreKnown(c: Cell, s: State, i: nat)
    requires |s.servers| == c.n && MessagesOk(c, s, s.net) && (i, 0) in s.elections && ElectionOk(c, s, i)
    ensures Known(c, s, TallyElect(s.elections[(i, 0)].answers).highestView)
  {
    var e := s.elections[(i, 0)];
    ElectMeaning(e.answers);
    var h := TallyElect(e.answers).highestView;
    if h != -1 {
      var k :| 0 <= k < |e.answers| && e.answers[k].Some? && !e.answers[k].value.ok && e.answers[k].value.view == h;
      assert MessageOk(c, s, ElectAns(e.target, k, e.answers[k].value));
    }
  }

  lemma NoWinStep(c: Cell, s: State, i: nat)
    requires AllOk(c, s) && i < c.n && (i, 0) in s.elections && ElectionOk(c, s, i) && Earned(c, s, i)
    requires Known(c, s, TallyElect(s.elections[(i, 0)].answers).highestView)
    requires FinishElectionEffect(s.servers[i], i, 0, s.elections[(i, 0)]).election.Drop? ==>
               FinishElectionEffect(s.servers[i], i, 0, s.elections[(i, 0)]).server.view >= s.elections[(i, 0)].target
    requires FinishElectionEffect(s.servers[i], i, 0, s.elections[(i, 0)]).win.None?
    ensures Sound(c, s, i, 0, FinishElectionEffect(s.servers[i], i, 0, s.elections[(i, 0)]))
  {
    var e := FinishElectionEffect(s.servers[i], i, 0, s.elections[(i, 0)]);
    assert EffectOnward(s, i, e);
    assert ViewEarned(c, s, i, e.server.view);
    EarnedStays(c, s, i, 0, e);
  }

  lemma WinStep(c: Cell, s: State, i: nat)
    requires AllOk(c, s) && EventsOk(c, s, s.log) && MessagesOk(c, s, s.net) && WinsOk(c, s)
    requires i < c.n && (i, 0) in s.elections && ElectionOk(c, s, i) && |s.elections[(i, 0)].answers| == c.n
    requires FinishElectionEffect(s.servers[i], i, 0, s.elections[(i, 0)]).win.Some?
    ensures Sound(c, s, i, 0, FinishElectionEffect(s.servers[i], i, 0, s.elections[(i, 0)]))
  {
    var el := s.elections[(i, 0)];
    var e := FinishElectionEffect(s.servers[i], i, 0, el);
    assert el.target in s.wins ==> WinOk(c, s, el.target);
    WinMeans(c, s.servers[i], i, el);
    hide FinishElectionEffect, Known, EventsOk, MessagesOk, WinsOk, AllOk, Wins, Sound, ElectionOk;
    WinnerIsSound(c, s, i, el, e);
  }

  lemma WinMeans(c: Cell, r: Server, i: nat, el: Election)
    requires r.numServers == c.n && FinishElectionEffect(r, i, 0, el).win.Some?
    ensures Wins(c, r, i, el, FinishElectionEffect(r, i, 0, el)) && r.view < el.target
  {
    ElectMeaning(el.answers);
    hide TallyElect;
  }

  /** The acknowledgements a winner counted are a majority of the cell, with the winner itself. */
  ghost predicate Wins(c: Cell, r: Server, i: nat, el: Election, e: Effect) {
    var h := e.server.highestAcceptedSeq;
    && Moves(r, e.server) && r.view < e.server.view == el.target
    && e.sent == {} && e.events == [Acked(i, el.target, h), Won(i, el.target)]
    && e.proposer.Keep? && e.election.Drop? && e.x == 0
    && e.win == Some((el.target, Win(Reported(el.answers, i, h), h)))
    && |ElectOks(el.answers)| + 1 > c.n / 2
    && forall k :: k in ElectOks(el.answers) ==> el.answers[k].value.highestSeq <= h
  }

  lemma WinnerIsSound(c: Cell, s: State, i: nat, el: Election, e: Effect)
    requires AllOk(c, s) && EventsOk(c, s, s.log) && MessagesOk(c, s, s.net)
    requires i < c.n && (i, 0) in s.elections && s.elections[(i, 0)] == el && ElectionOk(c, s, i) && |el.answers| == c.n
    requires el.target !in s.wins && Wins(c, s.servers[i], i, el, e)
    ensures Sound(c, s, i, 0, e)
  {
    WinnerHistory(c, s, i, el.target, e);
    MajorityIsSound(c, s, i, el, e);
    WinnerEarned(c, s, i, el.target, e);
    hide Known, EventsOk, WinOk, EffectOnward, Earned, ElectionOk, AllOk, MessagesOk, EventOk, Moves;
  }

  lemma WinnerEarned(c: Cell, s: State, i: nat, w: nat, e: Effect)
    requires |s.servers| == c.n && i < c.n && Owner(w, c.n) == i
    requires e.server.view == w && e.win.Some? && e.win.value.0 == w
    ensures Earned(c, Commit(s, i, 0, e), i)
  {
    assert Commit(s, i, 0, e).servers[i] == e.server;
  }

  lemma WinnerHistory(c: Cell, s: State, i: nat, w: nat, e: Effect)
    requires AllOk(c, s) && EventsOk(c, s, s.log)
    requires i < c.n && (i, 0) in s.elections && s.elections[(i, 0)].target == w && Owner(w, c.n) == i
    requires Moves(s.servers[i], e.server) && e.server.view == w && w !in s.wins
    requires e.events == [Acked(i, w, e.server.highestAcceptedSeq), Won(i, w)]
    requires e.election.Drop? && e.x == 0 && e.win.Some? && e.win.value.0 == w
    ensures EffectOnward(s, i, e) && EventsOk(c, Commit(s, i, 0, e), e.events)
  {
    var s' := Commit(s, i, 0, e);
    assert EffectOnward(s, i, e);
    CommitOnward(c, s, i, 0, e);
    assert s'.servers[i] == e.server;
    AckIsSound(c, s, s', i, w, e.server.highestAcceptedSeq);
  }

  lemma MajorityIsSound(c: Cell, s: State, i: nat, el: Election, e: Effect)
    requires AllOk(c, s) && MessagesOk(c, s, s.net)
    requires i < c.n && (i, 0) in s.elections && s.elections[(i, 0)] == el && ElectionOk(c, s, i) && |el.answers| == c.n
    requires Wins(c, s.servers[i], i, el, e)
    ensures WinOk(c, Commit(s, i, 0, e), el.target)
  {
    var s' := Commit(s, i, 0, e);
    var win := s'.wins[el.target];
    assert s'.servers[i] == e.server;
    assert win.reported.Keys == ElectOks(el.answers) + {i};
    assert i !in ElectOks(el.answers);
    assert s'.log[|s.log|] == Acked(i, el.target, e.server.highestAcceptedSeq);
    forall j | j in win.reported
      ensures Acked(j, el.target, win.reported[j]) in s'.log && win.reported[j] <= win.highest
    {
      if j != i {
        assert MessageOk(c, s, ElectAns(el.target, j, el.answers[j].value));
      }
    }
  }

  // ---- All steps, all runs ----

  lemma StepKeeps(c: Cell, s: State, t: Step)
    requires c.oneElection && Inv(c, s) && Enabled(c, s, t)
    ensures Inv(c, Apply(c, s, t)) && Onward(s, Apply(c, s, t))
  {
    StepMeansBasic(c, s, t);
    StepSound(c, s, t);
    CommitKeeps(c, s, t.i, SlotOf(t), EffectOf(c, s, t));
  }

  lemma StepSound(c: Cell, s: State, t: Step)
    requires c.oneElection && Inv(c, s) && Enabled(c, s, t)
    ensures Sound(c, s, t.i, SlotOf(t), EffectOf(c, s, t))
  {
    assert Earned(c, s, t.i);
    hide Sound;
    match t {
      case Begin(i, q, v, view) =>
        assert MessageOk(c, s, Launch(i, q, v, view));
        BeginStep(c, s, i, q, v, view);
      case AnswerPrepare(i, q, a) => AnswerPrepareStep(c, s, i, q, a);
      case FinishPrepare(i, q) => FinishPrepareStep(c, s, i, q);
      case AnswerAccept(i, q, a) => AnswerAcceptStep(c, s, i, q, a);
      case FinishAccept(i, q) => FinishAcceptStep(c, s, i, q);
      case FinishLearn(i, q) => PlainSound(c, s, i, q, Sends(s.servers[i], {}).(proposer := Drop));
      case FinishElection(i, x) =>
        assert x == 0 && ElectionOk(c, s, i);
        FinishElectionStep(c, s, i);
      case _ => HandlerSound(c, s, t);
    }
  }

  predicate IsHandler(t: Step) {
    !(t.Begin? || t.AnswerPrepare? || t.FinishPrepare? || t.AnswerAccept? || t.FinishAccept? || t.FinishLearn?
      || t.FinishElection?)
  }

  lemma HandlerSound(c: Cell, s: State, t: Step)
    requires c.oneElection && Inv(c, s) && Enabled(c, s, t) && IsHandler(t)
    ensures Sound(c, s, t.i, 0, EffectOf(c, s, t))
  {
    hide StartEffect, CallStartEffect, PassOnEffect, DeliverPrepareEffect, DeliverAcceptEffect, DeliverLearnEffect;
    hide DeliverHeartbeatEffect, DetectEffect, DeliverElectEffect, AnswerElectEffect, Sound;
    assert Earned(c, s, t.i);
    match t {
      case CallStart(i, q, v) => StartStep(c, s, i, q, v);
      case PassOn(i, q, v) => StartStep(c, s, i, q, v);
      case ArriveForward(i, q, v) => StartStep(c, s, i, q, v);
      case DeliverPrepare(i, q, prop, view) =>
        assert MessageOk(c, s, PrepareReq(q, prop, view));
        DeliverPrepareStep(c, s, i, q, prop, view);
      case DeliverAccept(i, q, view, v) =>
        assert MessageOk(c, s, AcceptReq(q, view, v));
        DeliverAcceptStep(c, s, i, q, view, v);
      case DeliverLearn(i, q, v) => LearnStep(c, s, i, q, v);
      case SendHeartbeat(i, to) => SendStep(c, s, i, to);
      case DeliverHeartbeat(i, view, done, decided) =>
        assert MessageOk(c, s, HeartbeatReq(view, done, decided));
        HeartbeatStep(c, s, i, view, done, decided);
      case AnswerHeartbeat(i, decided) => CopyStep(c, s, i, decided);
      case Detect(i, x) => DetectStep(c, s, i, x);
      case DeliverElect(i, view) => DeliverElectStep(c, s, i, view);
      case AnswerElect(i, x, a) =>
        assert x == 0 && ElectionOk(c, s, i);
        AnswerElectStep(c, s, i, a);
    }
  }
}
