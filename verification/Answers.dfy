/** What the handlers answer and the callers send, said over the state before and the messages: as written and under any
    repairs. */
module Answers {
  import opened PaxosTypes
  import opened Handlers
  import opened Tallies
  import opened Quorums
  import opened Cluster
  import opened Progress
  import opened Basics
  import opened Decisions
  import opened Ring

  // ---- What a server knows of a slot ----

  function PreparedNumber(r: Server, q: int): int {
    if q in r.slots then r.slots[q].nP else -1
  }

  function AcceptedValue(r: Server, q: int): string {
    if q in r.slots then r.slots[q].vA else ""
  }

  function AcceptedIn(r: Server, q: int): int {
    if q in r.slots then r.slots[q].acceptedView else -1
  }

  /** A decision is reported as its value, anything else as blank. */
  ghost predicate ReportsDecided(r: Server, q: int, value: string) {
    if q in r.Decided() then value == r.Decided()[q] else value == ""
  }

  ghost predicate OtherSlotsKept(r: Server, r': Server, q: int) {
    r'.slots.Keys == r.slots.Keys + {q} && forall k :: k in r.slots && k != q ==> r'.slots[k] == r.slots[k]
  }

  /** The slot keeps what was accepted and decided in it. */
  ghost predicate SameContent(r: Server, r': Server, q: int) {
    && AcceptedValue(r', q) == AcceptedValue(r, q) && AcceptedIn(r', q) == AcceptedIn(r, q)
    && (q in r'.Decided() <==> q in r.Decided()) && (q in r.Decided() ==> r'.Decided()[q] == r.Decided()[q])
  }

  /** The slot keeps the numbers its own proposer works with, and a new one starts at a view this server is or was in. */
  ghost predicate SameProposer(r: Server, r': Server, q: int) {
    && q in r'.slots
    && if q in r.slots then r'.slots[q].n == r.slots[q].n && r'.slots[q].highestN == r.slots[q].highestN
       else r'.slots[q].n == r'.slots[q].highestN && (r'.slots[q].n == r.view || r'.slots[q].n == r'.view)
  }

  /** Nothing but the slots and the view, with what follows the view, is touched. */
  ghost predicate OnlySlotsAndView(r: Server, r': Server) {
    r' == r.(slots := r'.slots, view := r'.view, leaderDead := r'.leaderDead, missedHeartbeats := r'.missedHeartbeats)
  }

  ghost predicate Refused(r: Server, q: int) {
    q < r.lowestSlot
  }

  /** The step only touches its server, and sends this one message. */
  ghost predicate SendsOne(s: State, s': State, m: Message) {
    s'.net == s.net + {m} && s'.proposers == s.proposers && s'.elections == s.elections && s'.wins == s.wins
  }

  /** A server that touches a slot for the first time starts its numbers at its view, with nothing promised or accepted;
      one that touches it again only notes its view. */
  lemma SlotIsTouched(r: Server, q: int)
    ensures var r' := AddSlots(r, q);
      && OtherSlotsKept(r, r', q) && r' == r.(slots := r'.slots)
      && var slot := r'.slots[q];
      && slot.nA == r.view
      && if q in r.slots then slot == r.slots[q].(nA := r.view)
         else slot.n == r.view && slot.highestN == r.view && slot.nP == -1 && slot.vA == "" && slot.status == PENDING
  {
  }

  // ---- Acceptors ----

  ghost predicate PrepareMeans(fix: Repairs, r: Server, r': Server, q: int, prop: int, view: int, a: PrepareReply) {
    && (a.ok <==> prop > PreparedNumber(r, q) && (fix.promiseViews ==> view >= r.view))
    && r'.view == (if fix.promiseViews then Max(r.view, view) else r.view)
    && PreparedNumber(r', q) == (if a.ok then prop else PreparedNumber(r, q)) && a.highestN == PreparedNumber(r', q)
    && a.nA == r'.view && a.vA == AcceptedValue(r, q) && a.acceptedView == AcceptedIn(r, q)
    && ReportsDecided(r, q, a.value) && a.latestDone == r.LatestDone()
    && OtherSlotsKept(r, r', q) && SameContent(r, r', q) && SameProposer(r, r', q) && OnlySlotsAndView(r, r')
  }

  /** A Prepare is promised exactly when its number is new, and its answer tells what is accepted and decided. */
  lemma PrepareIsAnswered(c: Cell, s: State, i: nat, q: int, prop: int, view: nat) returns (a: PrepareReply)
    requires |s.servers| == c.n && Enabled(c, s, DeliverPrepare(i, q, prop, view)) && !Refused(s.servers[i], q)
    ensures var s' := Apply(c, s, DeliverPrepare(i, q, prop, view));
      && SendsOne(s, s', PrepareAns(q, prop, view, i, a)) && s'.log == s.log && |s'.servers| == c.n
      && PrepareMeans(c.fix, s.servers[i], s'.servers[i], q, prop, view, a)
  {
    a := Prepare(c.fix, s.servers[i], q, prop, view).1.value;
    PrepareFields(c.fix, s.servers[i], q, prop, view);
    assert s.log + [] == s.log;
    hide PrepareMeans;
  }

  lemma PrepareFields(fix: Repairs, r: Server, q: int, prop: int, view: int)
    requires !Refused(r, q)
    ensures var (r', a) := Prepare(fix, r, q, prop, view); a.Some? && PrepareMeans(fix, r, r', q, prop, view, a.value)
  {
    PrepareKeeps(fix, r, q, prop, view);
    hide OtherSlotsKept, SameContent, SameProposer;
  }

  lemma PrepareKeeps(fix: Repairs, r: Server, q: int, prop: int, view: int)
    ensures q >= r.lowestSlot ==> OtherSlotsKept(r, Prepare(fix, r, q, prop, view).0, q)
    ensures q >= r.lowestSlot ==> SameContent(r, Prepare(fix, r, q, prop, view).0, q)
    ensures q >= r.lowestSlot ==> SameProposer(r, Prepare(fix, r, q, prop, view).0, q)
  {
  }

  ghost predicate AcceptMeans(r: Server, r': Server, q: int, view: int, v: string, a: AcceptReply) {
    && (a.ok <==> view >= r.view) && r'.view == Max(r.view, view)
    && r'.highestAcceptedSeq == (if a.ok then Max(r.highestAcceptedSeq, q) else r.highestAcceptedSeq)
    && (if a.ok then AcceptedValue(r', q) == v && AcceptedIn(r', q) == view
        else AcceptedValue(r', q) == AcceptedValue(r, q) && AcceptedIn(r', q) == AcceptedIn(r, q))
    && q in r'.slots && r'.slots[q].nA == r'.view && PreparedNumber(r', q) == PreparedNumber(r, q)
    && ReportsDecided(r, q, a.value) && a.latestDone == r.LatestDone() && a.view == r.view
    && OtherSlotsKept(r, r', q) && SameProposer(r, r', q)
    && OnlySlotsAndView(r.(highestAcceptedSeq := r'.highestAcceptedSeq), r')
    && (q in r'.Decided() <==> q in r.Decided()) && (q in r.Decided() ==> r'.Decided()[q] == r.Decided()[q])
  }

  /** An Accept is voted for exactly when its view is not below the server's, and only then moves what is accepted. */
  lemma AcceptIsAnswered(c: Cell, s: State, i: nat, q: int, view: nat, v: string) returns (a: AcceptReply)
    requires |s.servers| == c.n && Enabled(c, s, DeliverAccept(i, q, view, v)) && !Refused(s.servers[i], q)
    ensures var s' := Apply(c, s, DeliverAccept(i, q, view, v));
      && SendsOne(s, s', AcceptAns(q, view, v, i, a)) && |s'.servers| == c.n
      && s'.log == (if a.ok then s.log + [Voted(i, q, view, v)] else s.log)
      && AcceptMeans(s.servers[i], s'.servers[i], q, view, v, a)
  {
    a := Accept(s.servers[i], q, view, v).1.value;
    AcceptFields(s.servers[i], q, view, v);
    assert s.log + [] == s.log;
    hide AcceptMeans;
  }

  lemma AcceptFields(r: Server, q: int, view: int, v: string)
    requires !Refused(r, q)
    ensures var (r', a) := Accept(r, q, view, v); a.Some? && AcceptMeans(r, r', q, view, v, a.value)
  {
    AcceptKeeps(r, q, view, v);
    hide OtherSlotsKept, SameProposer;
  }

  lemma AcceptKeeps(r: Server, q: int, view: int, v: string)
    ensures q >= r.lowestSlot ==> OtherSlotsKept(r, Accept(r, q, view, v).0, q)
    ensures q >= r.lowestSlot ==> SameProposer(r, Accept(r, q, view, v).0, q)
  {
  }

  /** A slot that was collected is refused without an answer, and without a change. */
  lemma CollectedIsRefused(c: Cell, s: State, t: Step)
    requires |s.servers| == c.n && Enabled(c, s, t) && (t.DeliverPrepare? || t.DeliverAccept? || t.DeliverLearn?)
    requires Refused(s.servers[t.i], t.q)
    ensures Apply(c, s, t) == s
  {
    assert s.servers[t.i := s.servers[t.i]] == s.servers && s.net + {} == s.net && s.log + [] == s.log;
  }

  /** A candidate is acknowledged exactly when its view is not below the server's, which then follows it. */
  lemma ElectIsAnswered(c: Cell, s: State, i: nat, view: nat) returns (a: ElectReply)
    requires |s.servers| == c.n && Enabled(c, s, DeliverElect(i, view))
    ensures var r, s' := s.servers[i], Apply(c, s, DeliverElect(i, view));
      && SendsOne(s, s', ElectAns(view, i, a)) && |s'.servers| == c.n
      && s'.servers[i].view == Max(r.view, view) && s'.servers[i].slots == r.slots && OnlySlotsAndView(r, s'.servers[i])
      && (a.ok <==> view >= r.view) && a.view == s'.servers[i].view
      && (a.ok ==> a.highestSeq == r.highestAcceptedSeq && s'.log == s.log + [Acked(i, view, r.highestAcceptedSeq)])
      && (!a.ok ==> s'.log == s.log && a.highestSeq == 0)
  {
    a := Elect(s.servers[i], view).1;
    assert s.log + [] == s.log;
  }

  /** A promise is kept: once a server has promised a number, it refuses every number up to it for that slot. */
  lemma PromiseIsKept(c: Cell, states: seq<State>, steps: seq<Step>, m: nat, k: nat, a: PrepareReply, b: PrepareReply)
    requires Run(c, states, steps) && m < k < |steps| && steps[m].DeliverPrepare? && steps[k].DeliverPrepare?
    requires steps[m].i == steps[k].i && steps[m].q == steps[k].q && steps[k].prop <= steps[m].prop
    requires var i, q := steps[m].i, steps[m].q;
      && i < |states[m].servers| && i < |states[m + 1].servers| && i < |states[k].servers| && i < |states[k + 1].servers|
      && PrepareMeans(c.fix, states[m].servers[i], states[m + 1].servers[i], q, steps[m].prop, steps[m].view, a)
      && PrepareMeans(c.fix, states[k].servers[i], states[k + 1].servers[i], q, steps[k].prop, steps[k].view, b)
    requires a.ok
    ensures !b.ok
  {
    hide Enabled, Apply;
    OnlyForward(c, states, steps, m + 1, k);
    var i := steps[m].i;
    assert ServerForward(states[m + 1].servers[i], states[k].servers[i]);
  }

  // ---- Proposers ----

  /** `prop` is the first number after `n`, in steps of `step`, that exceeds `highestN`. */
  ghost predicate NextNumber(n: int, highestN: int, step: pos, prop: int) {
    && prop > highestN && n <= prop && (prop == n || prop - step <= highestN)
    && exists k: nat :: prop == n + k * step
  }

  lemma {:induction false} AdvanceMeans(n: int, highestN: int, step: pos)
    ensures NextNumber(n, highestN, step, AdvanceN(n, highestN, step))
    decreases highestN - n
  {
    if n > highestN {
      assert n == n + 0 * step;
    } else {
      AdvanceMeans(n + step, highestN, step);
      var prop := AdvanceN(n, highestN, step);
      var k: nat :| prop == (n + step) + k * step;
      assert (k + 1) * step == k * step + step;
      assert prop == n + (k + 1) * step;
    }
  }

  /** A proposer prepares exactly the undecided slots up to the highest one its server has accepted, with a number above
      all it has seen; for the slots above it asks for votes at once; and a decided slot it leaves alone. */
  lemma ProposalBegins(c: Cell, s: State, i: nat, q: int, v: string, view: nat)
    requires |s.servers| == c.n && Enabled(c, s, Begin(i, q, v, view))
    ensures var r, s' := s.servers[i], Apply(c, s, Begin(i, q, v, view));
      && |s'.servers| == c.n && q in s'.servers[i].slots
      && s'.servers[i] == r.(slots := r.slots[q := r.slots[q].(n := s'.servers[i].slots[q].n)],
                             proposed := s'.servers[i].proposed)
      && if q in r.Decided() then s'.net == s.net && s'.proposers == s.proposers
         else if q <= r.highestAcceptedSeq then
           var prop := s'.servers[i].slots[q].n;
           && NextNumber(r.slots[q].n, r.slots[q].highestN, c.n, prop)
           && s'.net == s.net + {PrepareReq(q, prop, view)}
           && s'.proposers == s.proposers[(i, q) := Proposer(v, view, Preparing(prop, []))]
         else
           var y := if c.fix.keepProposal && (view, q) in r.proposed then r.proposed[(view, q)] else v;
           && s'.net == s.net + {AcceptReq(q, view, y)}
           && s'.proposers == s.proposers[(i, q) := Proposer(v, view, Accepting(y, []))]
  {
    var slot := s.servers[i].slots[q];
    AdvanceMeans(slot.n, slot.highestN, c.n);
    assert s.net + {} == s.net;
    hide AdvanceN, NextNumber;
  }

  ghost predicate TellsOfDecision(q: int, a: seq<Option<AcceptReply>>, k: nat) {
    k < |a| && a[k].Some? && (a[k].value.value != "" || a[k].value.latestDone >= q)
  }

  ghost function Voters(a: seq<Option<AcceptReply>>): set<nat> {
    set k: nat | k < |a| && a[k].Some? && a[k].value.ok
  }

  lemma {:induction false} DecidedMeans(q: int, a: seq<Option<AcceptReply>>)
    ensures TallyAccept(q, a).decided <==> exists k: nat :: TellsOfDecision(q, a, k)
  {
    if a == [] {
    } else {
      var last := |a| - 1;
      DecidedMeans(q, a[..last]);
      assert forall k: nat :: k < last ==> (TellsOfDecision(q, a, k) <==> TellsOfDecision(q, a[..last], k));
      assert TellsOfDecision(q, a, last) ==> TallyAccept(q, a).decided;
    }
  }

  /** The Accept phase ends in teaching the value exactly when no answer tells of a decision, and, where the repair asks
      for it, a majority voted. Otherwise the proposal ends in silence. */
  lemma AcceptPhaseEnds(c: Cell, s: State, i: nat, q: int)
    requires |s.servers| == c.n && Enabled(c, s, FinishAccept(i, q))
    ensures var s', p := Apply(c, s, FinishAccept(i, q)), s.proposers[(i, q)];
      var a := p.phase.accepts;
      && |a| == c.n && s'.servers == s.servers && s'.log == s.log
      && if (forall k: nat :: !TellsOfDecision(q, a, k)) && (c.fix.needMajority ==> |Voters(a)| > c.n / 2) then
           && s'.net == s.net + {LearnReq(q, p.phase.accepted)}
           && s'.proposers == s.proposers[(i, q) := p.(phase := Learning(p.phase.accepted))]
         else s'.net == s.net && s'.proposers == s.proposers - {(i, q)}
  {
    var a := s.proposers[(i, q)].phase.accepts;
    DecidedMeans(q, a);
    AcceptMeaning(q, a);
    assert Voters(a) == AcceptOks(a);
    assert s.servers[i := s.servers[i]] == s.servers && s.net + {} == s.net && s.log + [] == s.log;
    hide TallyAccept, TellsOfDecision, Voters, AcceptOks;
  }

  /** An answer that reaches its caller is noted, after those before it. */
  lemma AnswerIsNoted(c: Cell, s: State, t: Step)
    requires |s.servers| == c.n && Enabled(c, s, t)
    ensures t.AnswerPrepare? ==>
              var p := s.proposers[(t.i, t.q)];
              Apply(c, s, t) == s.(proposers := s.proposers[(t.i, t.q) :=
                p.(phase := Preparing(p.phase.prop, p.phase.prepares + [t.prepareAnswer]))])
    ensures t.AnswerAccept? ==>
              var p := s.proposers[(t.i, t.q)];
              Apply(c, s, t) == s.(proposers := s.proposers[(t.i, t.q) :=
                p.(phase := Accepting(p.phase.accepted, p.phase.accepts + [t.acceptAnswer]))])
    ensures t.AnswerElect? ==>
              var el := s.elections[(t.i, t.x)];
              Apply(c, s, t) == s.(elections := s.elections[(t.i, t.x) := Election(el.target, el.answers + [t.electAnswer])])
  {
    if t.AnswerPrepare? || t.AnswerAccept? || t.AnswerElect? {
      assert s.servers[t.i := s.servers[t.i]] == s.servers && s.net + {} == s.net && s.log + [] == s.log;
    }
  }

  /** Any answer may be lost. */
  lemma AnswerMayBeLost(c: Cell, s: State, i: nat, q: int)
    requires |s.servers| == c.n && i < c.n && (i, q) in s.proposers && s.proposers[(i, q)].phase.Accepting?
    ensures Enabled(c, s, AnswerAccept(i, q, None)) <==> |s.proposers[(i, q)].phase.accepts| < c.n
  {
  }

  // ---- Calls ----

  ghost predicate MayLead(r: Server) {
    Owner(r.view, r.numServers) == r.me && !r.leaderDead
  }

  /** A call is dropped exactly when its slot was collected or is decided, or this server leads and holds itself for dead.
      Otherwise a leader starts a proposal in its view, and any other server passes the call on. */
  lemma CallIsTaken(c: Cell, s: State, i: nat, q: int, v: string)
    requires |s.servers| == c.n && Enabled(c, s, ArriveForward(i, q, v))
    ensures var r, s' := s.servers[i], Apply(c, s, ArriveForward(i, q, v));
      && |s'.servers| == c.n && SameContent(r, s'.servers[i], q) && s'.servers[i] == r.(slots := s'.servers[i].slots)
      && if Refused(r, q) || q in r.Decided() || (Owner(r.view, r.numServers) == r.me && r.leaderDead) then s'.net == s.net
      else if MayLead(r) then s'.net == s.net + {Launch(i, q, v, r.view)}
      else s'.net == s.net + {Redirect(i, q, v)}
  {
    assert s.net + {} == s.net;
  }

  /** A client's call is taken in the same way. */
  lemma ClientCallIsTaken(c: Cell, s: State, i: nat, q: int, v: string)
    requires |s.servers| == c.n && Enabled(c, s, CallStart(i, q, v)) && Enabled(c, s, ArriveForward(i, q, v))
    ensures var s' := Apply(c, s, CallStart(i, q, v));
      s' == Apply(c, s, ArriveForward(i, q, v)).(net := Apply(c, s, ArriveForward(i, q, v)).net + {StartCall(q, v)})
  {
    assert (s.net + StartEffect(s.servers[i], i, q, v).sent) + {StartCall(q, v)}
        == s.net + (StartEffect(s.servers[i], i, q, v).sent + {StartCall(q, v)});
  }

  /** A call that is passed on starts a proposal if this server has come to lead and the slot is open; otherwise the same
      slot and value go to the leader, even if the slot is decided. */
  lemma PassedOnCallGoesSomewhere(c: Cell, s: State, i: nat, q: int, v: string)
    requires |s.servers| == c.n && Enabled(c, s, PassOn(i, q, v))
    ensures var r, s' := s.servers[i], Apply(c, s, PassOn(i, q, v));
      s'.net == s.net + {if MayLead(r) && q !in r.Decided() then Launch(i, q, v, r.view) else Forwarded(q, v)}
  {
  }

  // ---- Heartbeats and Learn ----

  /** `r` is `done`, `k` times over. */
  ghost predicate TimesOver(done: seq<int>, k: nat, r: seq<int>) {
    |r| == k * |done| && forall x :: 0 <= x < |r| ==> |done| > 0 && r[x] == done[x % |done|]
  }

  lemma {:induction false} RepeatMeans(done: seq<int>, k: nat)
    ensures TimesOver(done, k, Repeat(done, k))
  {
    if k == 0 {
    } else {
      RepeatMeans(done, k - 1);
      var before := Repeat(done, k - 1);
      assert k * |done| == (k - 1) * |done| + |done|;
      forall x | 0 <= x < |before + done|
        ensures |done| > 0 && (before + done)[x] == done[x % |done|]
      {
        if x >= |before| {
          RemainderIs(x, k - 1, |done|, x - |before|);
        }
      }
    }
  }

  /** A leader sends its view and its decided slots to one peer after the other; `done` comes once more with each. */
  lemma HeartbeatIsSent(c: Cell, s: State, i: nat, to: nat) returns (done: seq<int>)
    requires |s.servers| == c.n && Enabled(c, s, SendHeartbeat(i, to))
    ensures var r := s.servers[i];
      && Owner(r.view, c.n) == i && TimesOver(r.done, to + 1, done)
      && Apply(c, s, SendHeartbeat(i, to)) == s.(net := s.net + {HeartbeatReq(r.view, done, r.Decided())})
  {
    done := Repeat(s.servers[i].done, to + 1);
    RepeatMeans(s.servers[i].done, to + 1);
    assert s.servers[i := s.servers[i]] == s.servers && s.log + [] == s.log;
  }

  ghost predicate LearnMeans(r: Server, r': Server, q: int, v: string) {
    && q in r'.Decided() && r'.Decided()[q] == (if q in r.Decided() then r.Decided()[q] else v)
    && OtherSlotsKept(r, r', q) && AcceptedValue(r', q) == AcceptedValue(r, q) && AcceptedIn(r', q) == AcceptedIn(r, q)
    && SameProposer(r, r', q) && PreparedNumber(r', q) == PreparedNumber(r, q) && r' == r.(slots := r'.slots, db := r'.db)
  }

  ghost predicate Written(r: Server, r': Server, q: int, v: string) {
    && (q in r.Decided() ==> r'.db == r.db)
    && (q !in r.Decided() ==> forall path, mode :: '#' !in path && v == path + "#" + mode ==> r'.db == r.db[path := mode])
    && (q !in r.Decided() && '#' !in v ==> r'.db == r.db)
  }

  /** A Learn decides an open slot and writes its pair, leaves a decided one alone, and is remembered. */
  lemma LearnIsExecuted(c: Cell, s: State, i: nat, q: int, v: string)
    requires |s.servers| == c.n && Enabled(c, s, DeliverLearn(i, q, v)) && !Refused(s.servers[i], q)
    ensures var r, s' := s.servers[i], Apply(c, s, DeliverLearn(i, q, v));
      && |s'.servers| == c.n && s'.net == s.net && s'.log == s.log + [Learned(i, q)]
      && LearnMeans(r, s'.servers[i], q, v) && Written(r, s'.servers[i], q, v)
  {
    assert s.net + {} == s.net;
    LearnFields(s.servers[i], q, v);
    LearnPair(s.servers[i], q, v);
    hide LearnMeans, Written;
  }

  lemma LearnFields(r: Server, q: int, v: string)
    requires !Refused(r, q)
    ensures LearnMeans(r, Learn(r, q, v), q, v)
  {
    LearnDecides(r, q, v);
  }

  lemma LearnPair(r: Server, q: int, v: string)
    requires !Refused(r, q)
    ensures Written(r, Learn(r, q, v), q, v)
  {
    assert q in r.Decided() <==> q in r.slots && r.slots[q].status == DECIDED;
    forall path, mode | '#' !in path && v == path + "#" + mode
      ensures GetKeyValue(v) == Some((path, mode))
    {
      SplitsAtFirstHash(path, mode);
    }
  }

  lemma SplitsAtFirstHash(path: string, mode: string)
    requires '#' !in path
    ensures GetKeyValue(path + "#" + mode) == Some((path, mode))
  {
    var kv := path + "#" + mode;
    assert kv[|path|] == '#';
    assert forall i :: 0 <= i < |path| ==> kv[i] == path[i] != '#';
    assert FirstHash(kv) == |path|;
    assert kv[..|path|] == path && kv[|path| + 1..] == mode;
  }

  /** A batch of decided slots that is copied, on either end of a heartbeat, touches nothing else of the slots. */
  ghost predicate OnlyCopies(r: Server, r': Server, batch: map<int, string>) {
    && r'.Decided() == batch + r.Decided() && r'.slots.Keys == r.slots.Keys + batch.Keys
    && (forall q :: q in r.slots && q !in batch ==> r'.slots[q] == r.slots[q])
    && forall q :: q in batch ==>
         && AcceptedValue(r', q) == AcceptedValue(r, q) && AcceptedIn(r', q) == AcceptedIn(r, q)
         && PreparedNumber(r', q) == PreparedNumber(r, q) && SameProposer(r, r', q)
  }

  lemma BatchIsCopied(r: Server, batch: map<int, string>)
    ensures OnlyCopies(r, DecideAll(r, batch), batch)
  {
    BatchDecides(r, batch);
    assert forall q :: q in DecideAll(r, batch).slots <==> q in r.slots || q in batch;
  }

  /** The answer to a heartbeat is copied by the leader. */
  lemma HeartbeatAnswerIsCopied(c: Cell, s: State, i: nat, decided: map<int, string>)
    requires |s.servers| == c.n && Enabled(c, s, AnswerHeartbeat(i, decided))
    ensures var r, s' := s.servers[i], Apply(c, s, AnswerHeartbeat(i, decided));
      && |s'.servers| == c.n && s'.net == s.net && s'.log == s.log
      && s'.servers[i] == r.(slots := s'.servers[i].slots) && OnlyCopies(r, s'.servers[i], decided)
  {
    BatchIsCopied(s.servers[i], decided);
    hide OnlyCopies;
    assert s.net + {} == s.net && s.log + [] == s.log;
  }

  /** A proposer is done once it has called Learn everywhere. */
  lemma TeachingEnds(c: Cell, s: State, i: nat, q: int)
    requires |s.servers| == c.n && Enabled(c, s, FinishLearn(i, q))
    ensures Apply(c, s, FinishLearn(i, q)) == s.(proposers := s.proposers - {(i, q)})
  {
    assert s.servers[i := s.servers[i]] == s.servers && s.net + {} == s.net && s.log + [] == s.log;
  }
}
