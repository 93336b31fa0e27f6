/** Who may lead a view. These invariants hold of the program as written and under any choice of repairs, as long as a
    server's elections do not overlap (assumption A: `oneElection`). */
module Views {
  import opened PaxosTypes
  import opened Handlers
  import opened Tallies
  import opened Quorums
  import opened Cluster
  import opened Progress
  import opened Basics

  /** A view in circulation has been reached by its owner, or its owner is standing for it right now. */
  ghost predicate Known(c: Cell, s: State, x: int)
    requires |s.servers| == c.n
  {
    x <= 0 || (var o := Owner(x, c.n); s.servers[o].view >= x || ((o, 0) in s.elections && s.elections[(o, 0)].target == x))
  }

  /** `i` has led view `w`. */
  ghost predicate Led(c: Cell, s: State, i: nat, w: nat)
    requires |s.servers| == c.n
  {
    Owner(w, c.n) == i && w <= s.servers[i].view && (w == 0 || w in s.wins)
  }

  ghost predicate MessageOk(c: Cell, s: State, m: Message)
    requires |s.servers| == c.n
  {
    match m
    case Launch(i, q, v, w) => Led(c, s, i, w)
    case ElectReq(w) => w > 0 && Known(c, s, w)
    case ElectAns(w, j, r) =>
      && j < c.n && Known(c, s, r.view)
      && if r.ok then Acked(j, w, r.highestSeq) in s.log else r.view > w
    case PrepareReq(q, prop, w) => Led(c, s, Owner(w, c.n), w)
    case PrepareAns(q, prop, w, j, r) => j < c.n && Known(c, s, r.nA)
    case AcceptReq(q, w, v) => Led(c, s, Owner(w, c.n), w)
    case AcceptAns(q, w, v, j, r) => j < c.n && (r.ok ==> Voted(j, q, w, v) in s.log)
    case HeartbeatReq(w, done, d) => w <= s.servers[Owner(w, c.n)].view
    case _ => true
  }

  ghost predicate EventOk(c: Cell, s: State, e: Event)
    requires |s.servers| == c.n
  {
    e.server < c.n &&
    match e
    case Voted(j, q, w, v) => w <= s.servers[j].view && q <= s.servers[j].highestAcceptedSeq
    case Acked(j, w, h) =>
      w <= s.servers[j].view && forall q, u: nat, v :: Voted(j, q, u, v) in s.log && u < w ==> q <= h
    case Won(i, w) => w in s.wins && Owner(w, c.n) == i
    case Learned(_, _) => true
  }

  ghost predicate WinOk(c: Cell, s: State, w: nat)
    requires |s.servers| == c.n && w in s.wins
  {
    var i, win := Owner(w, c.n), s.wins[w];
    && w > 0 && s.servers[i].view >= w && s.servers[i].highestAcceptedSeq >= win.highest
    && Quorum(c.n, win.reported.Keys)
    && forall j :: j in win.reported ==> Acked(j, w, win.reported[j]) in s.log && win.reported[j] <= win.highest
  }

  /** A server accepts nothing below a view it has acknowledged. */
  ghost predicate Ordered(log: seq<Event>) {
    forall a, b :: 0 <= a < b < |log| && log[a].Acked? && log[b].Voted? && log[a].server == log[b].server ==>
                     log[a].view <= log[b].view
  }

  /** A view that `i` may be in: it is known, and if `i` owns it then `i` won it. */
  ghost predicate ViewEarned(c: Cell, s: State, i: nat, view: nat)
    requires |s.servers| == c.n
  {
    Known(c, s, view) && (view != 0 && Owner(view, c.n) == i ==> view in s.wins)
  }

  ghost predicate Earned(c: Cell, s: State, i: nat)
    requires i < |s.servers| == c.n
  {
    ViewEarned(c, s, i, s.servers[i].view)
  }

  ghost predicate ElectionOk(c: Cell, s: State, i: nat)
    requires (i, 0) in s.elections
  {
    var e := s.elections[(i, 0)];
    && i < c.n && e.target > 0 && Owner(e.target, c.n) == i && |e.answers| <= c.n
    && (i < |e.answers| ==> e.answers[i].None?)
    && forall k :: 0 <= k < |e.answers| && e.answers[k].Some? ==> ElectAns(e.target, k, e.answers[k].value) in s.net
  }

  /** A proposer leads the view it works in, and prepares only while it stands for no other. */
  ghost predicate ProposerOk(c: Cell, s: State, i: nat, q: int)
    requires |s.servers| == c.n && (i, q) in s.proposers
  {
    var p := s.proposers[(i, q)];
    Led(c, s, i, p.view) && (p.phase.Preparing? ==> (i, 0) !in s.elections)
  }

  ghost predicate MessagesOk(c: Cell, s: State, net: set<Message>)
    requires |s.servers| == c.n
  {
    forall m :: m in net ==> MessageOk(c, s, m)
  }

  ghost predicate EventsOk(c: Cell, s: State, log: seq<Event>)
    requires |s.servers| == c.n
  {
    forall e :: e in log ==> EventOk(c, s, e)
  }

  ghost predicate WinsOk(c: Cell, s: State)
    requires |s.servers| == c.n
  {
    forall w :: w in s.wins ==> WinOk(c, s, w)
  }

  ghost predicate EarnedAll(c: Cell, s: State)
    requires |s.servers| == c.n
  {
    forall i :: 0 <= i < c.n ==> Earned(c, s, i)
  }

  ghost predicate ElectionsOk(c: Cell, s: State) {
    forall i, x :: (i, x) in s.elections ==> x == 0 && ElectionOk(c, s, i)
  }

  ghost predicate ProposersOk(c: Cell, s: State)
    requires |s.servers| == c.n
  {
    forall i, q :: (i, q) in s.proposers ==> ProposerOk(c, s, i, q)
  }

  ghost predicate Inv(c: Cell, s: State) {
    && Basic(c, s) && MessagesOk(c, s, s.net) && EventsOk(c, s, s.log) && Ordered(s.log) && WinsOk(c, s)
    && EarnedAll(c, s) && ElectionsOk(c, s) && ProposersOk(c, s)
  }

  // ---- One step ----

  /** A won view stays won, and an election goes on until its candidate has reached the view it stands for. */
  ghost predicate Lasts(s: State, s': State) {
    && (forall v :: v in s.wins ==> v in s'.wins && s'.wins[v] == s.wins[v])
    && forall i :: (i, 0) in s.elections && i < |s.servers| && i < |s'.servers| ==>
         || ((i, 0) in s'.elections && s'.elections[(i, 0)].target == s.elections[(i, 0)].target)
         || s'.servers[i].view >= s.elections[(i, 0)].target
  }

  ghost predicate Onward(s: State, s': State) {
    Forward(s, s') && Lasts(s, s')
  }

  lemma KnownStays(c: Cell, s: State, s': State, x: int)
    requires AllOk(c, s) && AllOk(c, s') && Onward(s, s') && Known(c, s, x)
    ensures Known(c, s', x)
  {
    if x > 0 {
      var o := Owner(x, c.n);
      assert ServerForward(s.servers[o], s'.servers[o]);
    }
  }

  lemma MessagesStay(c: Cell, s: State, s': State, net: set<Message>)
    requires AllOk(c, s) && AllOk(c, s') && Onward(s, s') && MessagesOk(c, s, net)
    ensures MessagesOk(c, s', net)
  {
    forall m | m in net
      ensures MessageOk(c, s', m)
    {
      assert MessageOk(c, s, m);
      match m {
        case ElectReq(w) => KnownStays(c, s, s', w);
        case ElectAns(w, j, r) => KnownStays(c, s, s', r.view);
        case PrepareAns(q, prop, w, j, r) => KnownStays(c, s, s', r.nA);
        case _ =>
      }
    }
  }

  lemma EventsStay(c: Cell, s: State, s': State)
    requires AllOk(c, s) && AllOk(c, s') && Onward(s, s') && EventsOk(c, s, s.log)
    ensures EventsOk(c, s', s.log)
  {
    forall e | e in s.log
      ensures EventOk(c, s', e)
    {
      assert EventOk(c, s, e);
    }
  }

  lemma WinsStay(c: Cell, s: State, s': State, w: nat)
    requires AllOk(c, s) && AllOk(c, s') && Onward(s, s') && w in s.wins && WinOk(c, s, w)
    ensures WinOk(c, s', w)
  {
  }

  ghost predicate EffectOnward(s: State, i: nat, e: Effect)
    requires i < |s.servers|
  {
    && EffectMoves(s, i, e)
    && ((i, e.x) in s.elections ==>
          match e.election
          case Keep => true
          case Set(x) => x.target == s.elections[(i, e.x)].target
          case Drop => e.server.view >= s.elections[(i, e.x)].target)
    && (e.win.Some? ==> e.win.value.0 !in s.wins)
  }

  lemma CommitOnward(c: Cell, s: State, i: nat, q: int, e: Effect)
    requires AllOk(c, s) && i < c.n && EffectOnward(s, i, e)
    ensures var s' := Commit(s, i, q, e); AllOk(c, s') && Onward(s, s')
  {
    var s' := Commit(s, i, q, e);
    CommitMoves(c, s, i, q, e);
    forall j | (j, 0) in s.elections && j < c.n
      ensures || ((j, 0) in s'.elections && s'.elections[(j, 0)].target == s.elections[(j, 0)].target)
              || s'.servers[j].view >= s.elections[(j, 0)].target
    {
      assert (j, 0) != (i, e.x) ==> (j, 0) in s'.elections && s'.elections[(j, 0)] == s.elections[(j, 0)];
      assert s'.servers[i] == e.server;
    }
  }

  /** What a step adds must be sound in the state it leads to. */
  ghost predicate EffectOk(c: Cell, s: State, i: nat, q: int, e: Effect)
    requires |s.servers| == c.n && i < c.n
  {
    var s' := Commit(s, i, q, e);
    && MessagesOk(c, s', e.sent)
    && EventsOk(c, s', e.events)
    && ((exists ev :: ev in e.events && ev.Voted?) ==> |e.events| == 1)
    && Earned(c, s', i)
    && (e.win.Some? ==> WinOk(c, s', e.win.value.0))
    && (e.election.Set? ==> e.x == 0 && ElectionOk(c, s', i))
    && (e.election.Set? && (i, 0) !in s.elections ==> forall k :: (i, k) in s.proposers ==> !s.proposers[(i, k)].phase.Preparing?)
    && (e.proposer.Set? ==> ProposerOk(c, s', i, q))
  }

  lemma EarnedStays(c: Cell, s: State, i: nat, q: int, e: Effect)
    requires AllOk(c, s) && i < c.n && EffectOnward(s, i, e) && ViewEarned(c, s, i, e.server.view)
    ensures Earned(c, Commit(s, i, q, e), i)
  {
    var s' := Commit(s, i, q, e);
    CommitOnward(c, s, i, q, e);
    KnownStays(c, s, s', e.server.view);
    assert s'.servers[i] == e.server;
  }

  /** A step without history, election or win is judged by the state before it. */
  lemma PlainSound(c: Cell, s: State, i: nat, q: int, e: Effect)
    requires AllOk(c, s) && i < c.n && EffectOnward(s, i, e)
    requires e.events == [] && e.win.None? && e.election.Keep?
    requires MessagesOk(c, s, e.sent) && ViewEarned(c, s, i, e.server.view)
    requires e.proposer.Set? ==>
               var p := e.proposer.value;
               Led(c, s, i, p.view) && (p.phase.Preparing? ==> (i, 0) !in s.elections)
    ensures EffectOk(c, s, i, q, e)
  {
    var s' := Commit(s, i, q, e);
    CommitOnward(c, s, i, q, e);
    MessagesStay(c, s, s', e.sent);
    EarnedStays(c, s, i, q, e);
    assert s'.servers[i] == e.server;
  }

  lemma OrderedStays(c: Cell, s: State, i: nat, q: int, e: Effect)
    requires Inv(c, s) && i < c.n && EffectOnward(s, i, e) && EffectOk(c, s, i, q, e)
    ensures Ordered(Commit(s, i, q, e).log)
  {
    var log := s.log + e.events;
    forall a, b | 0 <= a < b < |log| && log[a].Acked? && log[b].Voted? && log[a].server == log[b].server
      ensures log[a].view <= log[b].view
    {
      if b >= |s.log| {
        assert log[b] in e.events;
        assert log[a] in s.log && EventOk(c, s, log[a]);
      }
    }
  }

  lemma CommitKeeps(c: Cell, s: State, i: nat, q: int, e: Effect)
    requires Inv(c, s) && i < c.n && EffectOnward(s, i, e) && EffectOk(c, s, i, q, e) && EffectBasic(c, s, i, q, e)
    ensures var s' := Commit(s, i, q, e); Inv(c, s') && Onward(s, s')
  {
    CommitBasic(c, s, i, q, e);
    var s' := Commit(s, i, q, e);
    CommitOnward(c, s, i, q, e);
    MessagesStay(c, s, s', s.net);
    EventsStay(c, s, s');
    OrderedStays(c, s, i, q, e);
    forall w | w in s'.wins
      ensures WinOk(c, s', w)
    {
      if w in s.wins {
        WinsStay(c, s, s', w);
      }
    }
    OthersKeep(c, s, i, q, e);
  }

  lemma OthersKeep(c: Cell, s: State, i: nat, q: int, e: Effect)
    requires Inv(c, s) && i < c.n && EffectOnward(s, i, e) && EffectOk(c, s, i, q, e)
    requires Onward(s, Commit(s, i, q, e))
    ensures var s' := Commit(s, i, q, e); EarnedAll(c, s') && ElectionsOk(c, s') && ProposersOk(c, s')
  {
    var s' := Commit(s, i, q, e);
    forall j | 0 <= j < c.n
      ensures Earned(c, s', j)
    {
      assert Earned(c, s, j);
      KnownStays(c, s, s', s.servers[j].view);
    }
    forall j, x | (j, x) in s'.elections
      ensures x == 0 && ElectionOk(c, s', j)
    {
      if (j, x) in s.elections {
        assert ElectionOk(c, s, j);
      }
    }
    forall j, k | (j, k) in s'.proposers
      ensures ProposerOk(c, s', j, k)
    {
      if (j, k) in s.proposers {
        assert ProposerOk(c, s, j, k);
        assert ServerForward(s.servers[j], s'.servers[j]);
      }
    }
  }

  /** However an election ends, its candidate has reached the view it stood for. */
  lemma EndsAtTarget(c: Cell, s: State, i: nat)
    requires Inv(c, s) && (i, 0) in s.elections
    ensures var e := s.elections[(i, 0)];
      match Conclude(s.servers[i], e.target, TallyElect(e.answers))
      case Retry => true
      case Ended(r, won) => r.view >= e.target
  {
    assert ElectionOk(c, s, i);
    var e := s.elections[(i, 0)];
    var t := TallyElect(e.answers);
    ElectMeaning(e.answers);
    if t.rejects > 0 {
      var k :| 0 <= k < |e.answers| && e.answers[k].Some? && !e.answers[k].value.ok;
      assert MessageOk(c, s, ElectAns(e.target, k, e.answers[k].value));
    }
  }
}
