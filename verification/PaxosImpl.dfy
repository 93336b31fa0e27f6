/** The server object of the consensus layer, with its fields updated in place. Every method is proved to compute the
    function of Handlers.dfy, Tallies.dfy or GarbageCollection.dfy that the rest of the project reasons about. */
module PaxosServer {
  import opened PaxosTypes
  import opened Handlers
  import opened Tallies
  import opened Cluster
  import opened Decisions
  import opened Extension
  import opened GarbageCollection

  /** The slots once the part `finished` of a batch is copied. */
  ghost function Copied(s: Server, batch: map<int, string>, finished: set<int>): map<int, Slot>
    requires finished <= batch.Keys
  {
    map k | k in s.slots.Keys + finished :: if k in finished then DecidedSlot(s, k, batch[k]) else s.slots[k]
  }

  lemma CopyOneMore(s: Server, batch: map<int, string>, finished: set<int>, q: int)
    requires finished <= batch.Keys && q in batch && q !in finished
    ensures Copied(s, batch, finished + {q}) == Copied(s, batch, finished)[q := DecidedSlot(s, q, batch[q])]
    ensures DecidedSlot(s.(slots := Copied(s, batch, finished)), q, batch[q]) == DecidedSlot(s, q, batch[q])
  {
  }

  lemma CopiedAll(s: Server, batch: map<int, string>)
    ensures Copied(s, batch, {}) == s.slots
    ensures s.(slots := Copied(s, batch, batch.Keys)) == DecideAll(s, batch)
  {
  }

  /** The leader's slots after the answers of its peers to a heartbeat; its own answer is not looked at. */
  function CopyAll(s: Server, answers: seq<Option<map<int, string>>>): Server {
    if answers == [] then s
    else
      var last := |answers| - 1;
      var before := CopyAll(s, answers[..last]);
      if last != s.me && answers[last].Some? then DecideAll(before, answers[last].value) else before
  }

  lemma CopyNone(s: Server, answers: seq<Option<map<int, string>>>)
    ensures CopyAll(s, answers[..0]) == s
  {
  }

  lemma CopyOneAnswer(s: Server, answers: seq<Option<map<int, string>>>, k: nat)
    requires k < |answers|
    ensures var before := CopyAll(s, answers[..k]);
      CopyAll(s, answers[..k + 1]) ==
      if k != s.me && answers[k].Some? then DecideAll(before, answers[k].value) else before
  {
    assert answers[..k + 1][..k] == answers[..k];
  }

  /** Peer `k` sent slot `q` back. */
  ghost predicate SentBack(s: Server, answers: seq<Option<map<int, string>>>, k: nat, q: int) {
    k < |answers| && k != s.me && answers[k].Some? && q in answers[k].value
  }

  /** Peer `k` was the first to do so. */
  ghost predicate SentBackFirst(s: Server, answers: seq<Option<map<int, string>>>, k: nat, q: int) {
    SentBack(s, answers, k, q) && forall j: nat :: j < k ==> !SentBack(s, answers, j, q)
  }

  /** What the leader `s` knows of slot `q` after the answers: what it had decided, or else what the first peer to send the
      slot back says. */
  ghost predicate Learns(s: Server, answers: seq<Option<map<int, string>>>, q: int, d: map<int, string>) {
    if q in s.Decided() then q in d && d[q] == s.Decided()[q]
    else
      && (q in d <==> exists k: nat :: SentBackFirst(s, answers, k, q))
      && forall k: nat :: SentBackFirst(s, answers, k, q) && q in d ==> d[q] == answers[k].value[q]
  }

  lemma {:induction false} CopyAllMeans(s: Server, answers: seq<Option<map<int, string>>>, q: int)
    ensures Learns(s, answers, q, CopyAll(s, answers).Decided()) && CopyAll(s, answers).me == s.me
  {
    if answers == [] {
    } else {
      var last := |answers| - 1;
      var before := CopyAll(s, answers[..last]);
      CopyAllMeans(s, answers[..last], q);
      if last != s.me && answers[last].Some? {
        BatchDecides(before, answers[last].value);
      }
      LearnsOneMore(s, answers, q, before.Decided());
      hide DecideAll, Learns;
    }
  }

  lemma LearnsOneMore(s: Server, answers: seq<Option<map<int, string>>>, q: int, d: map<int, string>)
    requires answers != [] && Learns(s, answers[..|answers| - 1], q, d)
    ensures var last := |answers| - 1;
      Learns(s, answers, q, if last != s.me && answers[last].Some? then answers[last].value + d else d)
  {
    var last := |answers| - 1;
    var b := answers[..last];
    assert forall k: nat :: k < last ==> (SentBack(s, b, k, q) <==> SentBack(s, answers, k, q));
    assert forall k: nat :: k < last ==> (SentBackFirst(s, b, k, q) <==> SentBackFirst(s, answers, k, q));
    if q !in s.Decided() && q !in d && SentBack(s, answers, last, q) {
      NobodyBefore(s, b, q);
      assert SentBackFirst(s, answers, last, q);
    }
  }

  /** If nobody was the first to send a slot back, nobody did. */
  lemma NobodyBefore(s: Server, answers: seq<Option<map<int, string>>>, q: int)
    requires forall k: nat :: !SentBackFirst(s, answers, k, q)
    ensures forall k: nat :: !SentBack(s, answers, k, q)
  {
    if k: nat :| SentBack(s, answers, k, q) {
      NoneUpTo(s, answers, q, k + 1);
    }
  }

  lemma {:induction false} NoneUpTo(s: Server, answers: seq<Option<map<int, string>>>, q: int, n: nat)
    requires forall k: nat :: !SentBackFirst(s, answers, k, q)
    ensures forall k: nat :: k < n ==> !SentBack(s, answers, k, q)
  {
    if n == 0 {
    } else {
      NoneUpTo(s, answers, q, n - 1);
      assert !SentBackFirst(s, answers, n - 1, q);
    }
  }

  /** The requests of a round of heartbeats to the first `k` peers. */
  function Requests(view: nat, done: seq<int>, decided: map<int, string>, k: nat): (r: seq<Message>)
    ensures |r| == k && forall j :: 0 <= j < k ==> r[j] == HeartbeatReq(view, Repeat(done, j + 1), decided)
  {
    if k == 0 then [] else Requests(view, done, decided, k - 1) + [HeartbeatReq(view, Repeat(done, k), decided)]
  }

  lemma OneMoreRequest(view: nat, done: seq<int>, decided: map<int, string>, k: nat)
    ensures Repeat(done, k + 1) == Repeat(done, k) + done
    ensures Requests(view, done, decided, k + 1) ==
            Requests(view, done, decided, k) + [HeartbeatReq(view, Repeat(done, k + 1), decided)]
  {
  }

  /** The slot an iteration over a map comes to next. */
  method Next(todo: set<int>) returns (q: int)
    requires todo != {}
    ensures q in todo
  {
    ghost var k := Any(todo);
    q :| q in todo;
  }

  class PaxosImpl {
    const me: nat
    const numServers: pos
    var view: nat
    var highestAcceptedSeq: int
    var lowestSlot: int
    var done: seq<int>
    var slots: map<int, Slot>
    var leaderDead: bool
    var missedHeartbeats: int
    var leaderElectionHappened: bool
    var paxosDb: map<string, string>

    ghost predicate Valid()
      reads this
    {
      me < numServers && me < |done|
    }

    ghost function State(): Server
      reads this
    {
      Server(me, numServers, view, highestAcceptedSeq, lowestSlot, done, slots, leaderDead, missedHeartbeats,
             leaderElectionHappened, paxosDb, map[])
    }

    constructor (me: nat, groupSize: pos)
      requires me < groupSize
      ensures Valid() && this.me == me && numServers == groupSize
      ensures view == 0 && highestAcceptedSeq == 0 && lowestSlot == 0 && slots == map[] && paxosDb == map[]
      ensures |done| == groupSize && forall i :: 0 <= i < groupSize ==> done[i] == -1
    {
      this.me, numServers := me, groupSize;
      view, highestAcceptedSeq, lowestSlot, missedHeartbeats := 0, 0, 0, 0;
      slots, paxosDb := map[], map[];
      leaderDead, leaderElectionHappened := false, false;
      done := [];
      new;
      for i := 0 to groupSize
        invariant |done| == i && forall j :: 0 <= j < i ==> done[j] == -1
        invariant view == 0 && highestAcceptedSeq == 0 && lowestSlot == 0 && slots == map[] && paxosDb == map[]
      {
        done := done + [-1];
      }
    }

    method AddSlots(q: int) returns (slot: Slot)
      modifies this`slots
      ensures State() == Handlers.AddSlots(old(State()), q)
      ensures q in slots && slot == slots[q] && slot.nA == view
    {
      if q !in slots {
        slots := slots[q := InitSlot(view)];
      }
      slots := slots[q := slots[q].(nA := view)];
      slot := slots[q];
    }

    method MoveTo(newView: nat)
      modifies this`view, this`leaderDead, this`missedHeartbeats
      ensures State() == Adopt(old(State()), newView)
    {
      if newView > view {
        view, leaderDead, missedHeartbeats := newView, false, 0;
      }
    }

    method Elect(requested: nat) returns (reply: ElectReply)
      modifies this`view, this`leaderDead, this`missedHeartbeats
      ensures (State(), reply) == Handlers.Elect(old(State()), requested)
    {
      if requested > view {
        view := requested;
        reply := ElectReply(true, view, highestAcceptedSeq);
        leaderDead, missedHeartbeats := false, 0;
      } else if requested == view {
        reply := ElectReply(true, view, highestAcceptedSeq);
      } else {
        reply := ElectReply(false, view, 0);
      }
    }

    method Prepare(q: int, proposal: int) returns (reply: Option<PrepareReply>)
      requires Valid()
      modifies this`slots
      ensures Valid() && (State(), reply) == Handlers.Prepare(AS_WRITTEN, old(State()), q, proposal, 0)
    {
      if q < lowestSlot {
        return None;
      }
      var slot := AddSlots(q);
      var ok := proposal > slot.nP;
      if ok {
        slots := slots[q := slot.(nP := proposal)];
      }
      assert slots == slots[q := slots[q]];
      var value := if slot.status == DECIDED then slot.value else "";
      reply := Some(PrepareReply(ok, slot.nA, slot.vA, slots[q].nP, value, done[me], slot.acceptedView));
    }

    method Accept(q: int, requested: nat, value: string) returns (reply: Option<AcceptReply>)
      requires Valid()
      modifies this
      ensures Valid() && (State(), reply) == Handlers.Accept(old(State()), q, requested, value)
    {
      if q < lowestSlot {
        return None;
      }
      var slot := AddSlots(q);
      MoveTo(requested);
      var ok := requested >= slot.nA;
      if ok {
        slots := slots[q := slot.(nA := requested, vA := value, acceptedView := requested)];
        if q > highestAcceptedSeq {
          highestAcceptedSeq := q;
        }
      }
      var decided := if slot.status == DECIDED then slot.value else "";
      reply := Some(AcceptReply(ok, slot.nA, decided, done[me]));
    }

    method Learn(q: int, value: string)
      modifies this`slots, this`paxosDb
      ensures State() == Handlers.Learn(old(State()), q, value)
    {
      if q < lowestSlot {
        return;
      }
      var slot := AddSlots(q);
      if slot.status != DECIDED {
        slots := slots[q := slot.(status := DECIDED, value := value)];
        match GetKeyValue(value) {
          case None =>
          case Some(p) => paxosDb := paxosDb[p.0 := p.1];
        }
      }
    }

    /** `Start`, up to the thread it starts. */
    method Start(q: int) returns (action: StartAction)
      requires Valid()
      modifies this`slots
      ensures Valid() && (State(), action) == Handlers.Start(old(State()), q)
    {
      if q < lowestSlot {
        return Ignore;
      }
      var slot := AddSlots(q);
      if slot.status == DECIDED {
        action := Ignore;
      } else if view % numServers == me {
        action := if leaderDead then Ignore else Propose(view);
      } else {
        action := ForwardToLeader;
      }
    }

    /** `StartOnForward`, up to the proposal or the call it makes. */
    method StartOnForward(q: int) returns (action: StartAction)
      modifies this`slots
      ensures (State(), action) == Handlers.StartOnForward(old(State()), q)
    {
      var slot := AddSlots(q);
      if slot.status != DECIDED {
        if view % numServers == me {
          if !leaderDead {
            return Propose(view);
          }
        }
      }
      action := ForwardToLeader;
    }

    method DecideOne(q: int, value: string)
      modifies this`slots
      ensures State() == Decide(old(State()), q, value)
    {
      var slot := AddSlots(q);
      if slot.status != DECIDED {
        slots := slots[q := slot.(status := DECIDED, value := value)];
      }
    }

    /** Mark as decided every slot of a batch. */
    method CopyDecided(batch: map<int, string>)
      modifies this`slots
      ensures State() == DecideAll(old(State()), batch)
    {
      ghost var before := State();
      var todo := batch.Keys;
      CopiedAll(before, batch);
      assert batch.Keys - todo == {};
      while todo != {}
        invariant todo <= batch.Keys
        invariant State() == before.(slots := Copied(before, batch, batch.Keys - todo))
        decreases todo
      {
        var q := Next(todo);
        CopyOneMore(before, batch, batch.Keys - todo, q);
        assert batch.Keys - (todo - {q}) == batch.Keys - todo + {q};
        todo := todo - {q};
        DecideOne(q, batch[q]);
      }
      assert batch.Keys - todo == batch.Keys;
    }

    method Missing(batch: map<int, string>) returns (missing: map<int, string>)
      ensures missing == State().Decided() - batch.Keys
    {
      missing := map[];
      var todo := slots.Keys;
      while todo != {}
        invariant todo <= slots.Keys
        invariant missing == map k | k in slots && k !in todo && slots[k].status == DECIDED && k !in batch :: slots[k].value
        decreases todo
      {
        var q := Next(todo);
        todo := todo - {q};
        if slots[q].status == DECIDED && q !in batch {
          missing := missing[q := slots[q].value];
        }
      }
    }

    method Heartbeat(id: nat, leaderView: nat, leaderDone: seq<int>, batch: map<int, string>)
      returns (reply: Option<map<int, string>>)
      modifies this
      ensures (State(), reply) == Handlers.Heartbeat(old(State()), id, leaderView, leaderDone, batch)
    {
      if me == id {
        missedHeartbeats := 0;
        return None;
      }
      if view > leaderView {
        return None;
      }
      MoveTo(leaderView);
      done, missedHeartbeats := leaderDone, 0;
      var missing := Missing(batch);
      assert State().Decided() == old(State()).Decided();
      CopyDecided(batch);
      reply := Some(missing);
    }

    method DetectLeaderFailure() returns (target: Option<nat>)
      requires Valid()
      modifies this`missedHeartbeats, this`leaderDead, this`leaderElectionHappened
      ensures Valid() && (State(), target) == Handlers.DetectLeaderFailure(old(State()))
    {
      target := None;
      missedHeartbeats := missedHeartbeats + 1;
      if missedHeartbeats > 3 {
        var mod := view % numServers;
        if mod < me {
          target := Some(view + (me - mod));
        } else if mod > me {
          target := Some(view + (me + numServers - mod));
        }
        missedHeartbeats, leaderDead, leaderElectionHappened := 0, true, true;
      }
    }

    /** `Election`: rounds of calls to the peers until one of them decides. `rounds[r][k]` is what peer `k` answered. */
    method Election(target: nat, rounds: seq<seq<Option<ElectReply>>>) returns (ended: bool, won: bool)
      requires forall r :: 0 <= r < |rounds| ==> |rounds[r]| == numServers
      modifies this`view, this`leaderDead, this`missedHeartbeats, this`highestAcceptedSeq
      ensures FirstVerdict(old(State()), target, rounds) == if ended then Ended(State(), won) else Retry
      ensures !ended ==> !won && State() == old(State())
    {
      ended, won := false, false;
      for r := 0 to |rounds|
        invariant !ended && !won && State() == old(State())
        invariant FirstVerdict(old(State()), target, rounds) == FirstVerdict(State(), target, rounds[r..])
      {
        assert rounds[r..][0] == rounds[r] && rounds[r..][1..] == rounds[r + 1..];
        ended, won := ElectionTurn(target, rounds[r]);
        if ended {
          return;
        }
      }
    }

    /** One turn of `Election`'s endless loop, from whatever state other handlers have left the server in. */
    method ElectionTurn(target: nat, answers: seq<Option<ElectReply>>) returns (ended: bool, won: bool)
      requires |answers| == numServers
      modifies this`view, this`leaderDead, this`missedHeartbeats, this`highestAcceptedSeq
      ensures Conclude(old(State()), target, TallyElect(answers)) == if ended then Ended(State(), won) else Retry
      ensures !ended ==> !won && State() == old(State())
    {
      var t := ElectionRound(answers);
      if t.rejects > 0 {
        if t.highestView > view && target < t.highestView {
          MoveTo(t.highestView);
        }
        return true, false;
      }
      if t.majority + 1 > numServers / 2 {
        if t.highestView <= target && view < target {
          MoveTo(target);
          if t.maxHighest > highestAcceptedSeq {
            highestAcceptedSeq := t.maxHighest;
          }
          return true, true;
        }
        if t.highestView > view {
          MoveTo(t.highestView);
        }
        return true, false;
      }
      return false, false;
    }

    method ElectionRound(answers: seq<Option<ElectReply>>) returns (t: ElectTally)
      ensures t == TallyElect(answers)
    {
      var majority: nat, rejects: nat, highestView, maxHighest := 0, 0, -1, -1;
      t := ElectTally(majority, rejects, highestView, maxHighest);
      for k := 0 to |answers|
        invariant t == ElectTally(majority, rejects, highestView, maxHighest) == TallyElect(answers[..k])
      {
        if answers[k].Some? {
          var r := answers[k].value;
          if !r.ok {
            rejects := rejects + 1;
            if r.view > highestView {
              highestView := r.view;
            }
          } else {
            majority := majority + 1;
            if r.highestSeq > maxHighest {
              maxHighest := r.highestSeq;
            }
          }
        }
        t := ElectTally(majority, rejects, highestView, maxHighest);
        assert answers[..k + 1][..k] == answers[..k];
      }
      assert answers[..|answers|] == answers;
    }

    /** `SendHeartbeats`: one request per peer, with `done` appended once more each time; what comes back is copied. */
    method SendHeartbeats(answers: seq<Option<map<int, string>>>) returns (sent: seq<Message>)
      requires |answers| == numServers
      modifies this`slots
      ensures view % numServers != me ==> sent == [] && State() == old(State())
      ensures view % numServers == me ==>
                sent == Requests(view, done, old(State()).Decided(), numServers)
      ensures view % numServers == me ==> State() == CopyAll(old(State()), answers)
    {
      sent := [];
      if view % numServers != me {
        return;
      }
      ghost var before := State();
      var decided := Missing(map[]);
      assert decided == before.Decided();
      var doneList := [];
      CopyNone(before, answers);
      assert Repeat(done, 0) == [] && Requests(view, done, decided, 0) == [];
      hide CopyAll, DecideAll, Repeat, Requests;
      for k := 0 to numServers
        invariant doneList == Repeat(done, k) && sent == Requests(view, done, decided, k)
        invariant State() == CopyAll(before, answers[..k])
      {
        CopyOneAnswer(before, answers, k);
        OneMoreRequest(view, done, decided, k);
        doneList := doneList + done;
        sent := sent + [HeartbeatReq(view, doneList, decided)];
        if k != me && answers[k].Some? {
          CopyDecided(answers[k].value);
        }
      }
      assert answers[..numServers] == answers;
    }

    /** The head of `StartOnNewSlot`, once it holds the slot's mutex. */
    method BeginNewSlot(q: int, v: string, myView: nat) returns (sent: set<Message>, next: Change<Proposer>)
      requires q in slots
      modifies this`slots
      ensures var e := BeginEffect(Cell(numServers, AS_WRITTEN, false), old(State()), q, v, myView);
              sent == e.sent && next == e.proposer && State() == e.server.(proposed := map[])
    {
      var slot := slots[q];
      if slot.status == DECIDED {
        return {}, Keep;
      }
      if q <= highestAcceptedSeq {
        var n := slot.n;
        ghost var target := AdvanceN(n, slot.highestN, numServers);
        while n <= slot.highestN
          invariant AdvanceN(n, slot.highestN, numServers) == target
          decreases slot.highestN - n
        {
          n := n + numServers;
        }
        slots := slots[q := slot.(n := n)];
        sent, next := {PrepareReq(q, n, myView)}, Set(Proposer(v, myView, Preparing(n, [])));
      } else {
        sent, next := {AcceptReq(q, myView, v)}, Set(Proposer(v, myView, Accepting(v, [])));
      }
    }

    /** The Prepare phase of `StartOnNewSlot`, from the first answer to the decision how to go on. */
    method PreparePhase(q: int, p: Proposer) returns (sent: set<Message>, next: Change<Proposer>)
      requires q in slots && p.phase.Preparing? && |p.phase.prepares| <= numServers
      modifies this
      ensures var e := FinishPrepareEffect(Cell(numServers, AS_WRITTEN, false), old(State()), q, p);
              sent == e.sent && next == e.proposer && State() == e.server.(proposed := map[])
    {
      var t := PrepareRound(p.v, slots[q].highestN, p.phase.prepares);
      slots := slots[q := slots[q].(highestN := t.highestN)];
      if t.top > p.view {
        MoveTo(t.top);
        return {Redirect(me, q, p.v)}, Drop;
      }
      if t.decided.Some? {
        var x := t.decided.value;
        sent, next := {LearnReq(q, x)}, Set(p.(phase := Learning(x)));
      } else {
        var x := if t.va == "" then p.v else t.va;
        sent, next := {AcceptReq(q, p.view, x)}, Set(p.(phase := Accepting(x, [])));
      }
    }

    /** The loop over the peers: counters, the map of `n_a` counts, and the four ways to leave early.
        As written, the highest `n_a` seen is also the rank of the value taken. */
    method PrepareRound(v: string, highestN0: int, answers: seq<Option<PrepareReply>>) returns (t: PrepareTally)
      ensures t == TallyPrepare(AS_WRITTEN, numServers, v, highestN0, answers)
      ensures t.seen == t.top
    {
      t := PrepareTally(0, 0, -1, -1, v, map[], highestN0, None, false);
      TallyNone(AS_WRITTEN, numServers, v, highestN0, answers);
      hide TallyPrepare;
      for k := 0 to |answers|
        invariant t == TallyPrepare(AS_WRITTEN, numServers, v, highestN0, answers[..k])
        invariant !t.stop && t.seen == t.top && t.decided.None?
      {
        TallyOneMore(AS_WRITTEN, numServers, v, highestN0, answers, k);
        if answers[k].Some? && answers[k].value.ok {
          t := CountPromise(t, answers[k].value);
          if t.stop {
            StoppedStays(AS_WRITTEN, numServers, v, highestN0, answers, k + 1);
            return;
          }
        }
      }
      assert answers[..|answers|] == answers;
    }

    /** The loop's body for an OK answer. */
    method CountPromise(t: PrepareTally, r: PrepareReply) returns (t': PrepareTally)
      requires t.seen == t.top && t.decided.None? && !t.stop
      ensures t' == CountPrepareOk(AS_WRITTEN, numServers, t, r)
      ensures t'.seen == t'.top && (!t'.stop ==> t'.decided.None?)
    {
      var majority, rejects, highestNa, highestVa, counts := t.majority + 1, t.rejects, t.top, t.va, t.counts;
      var highestN, decided, stop := t.highestN, t.decided, false;
      if r.nA > highestNa {
        highestNa, highestVa := r.nA, r.vA;
        counts := counts[highestNa := CountOf(counts, highestNa) + 1];
      } else {
        rejects := rejects + 1;
        if highestN < r.highestN {
          highestN := r.highestN;
        }
      }
      if r.value != "" {
        decided, stop := Some(r.value), true;
      } else if CountOf(counts, highestNa) > numServers / 2 {
        decided, stop := Some(highestVa), true;
      } else {
        stop := rejects > numServers / 2 || majority > numServers / 2;
      }
      t' := PrepareTally(majority, rejects, highestNa, highestNa, highestVa, counts, highestN, decided, stop);
    }

    /** The Accept phase of `StartOnNewSlot`, when all its threads have joined. */
    method AcceptPhase(q: int, p: Proposer) returns (sent: set<Message>, next: Change<Proposer>)
      requires p.phase.Accepting?
      ensures var e := FinishAcceptEffect(Cell(numServers, AS_WRITTEN, false), State(), q, p);
              sent == e.sent && next == e.proposer && e.server == State()
    {
      var t := AcceptRound(q, p.phase.accepts);
      if t.decided {
        return {}, Drop;
      }
      sent, next := {LearnReq(q, p.phase.accepted)}, Set(p.(phase := Learning(p.phase.accepted)));
    }

    method AcceptRound(q: int, answers: seq<Option<AcceptReply>>) returns (t: AcceptTally)
      ensures t == TallyAccept(q, answers)
    {
      var majority: nat, rejects: nat, highestView, decided := 0, 0, -1, false;
      t := AcceptTally(majority, rejects, highestView, decided);
      for k := 0 to |answers|
        invariant t == AcceptTally(majority, rejects, highestView, decided) == TallyAccept(q, answers[..k])
      {
        assert answers[..k + 1][..k] == answers[..k];
        if answers[k].Some? {
          var r := answers[k].value;
          if r.ok {
            majority := majority + 1;
          } else {
            rejects := rejects + 1;
            if r.view > highestView {
              highestView := r.view;
            }
          }
          if r.latestDone >= q || r.value != "" {
            decided := true;
          }
        }
        t := AcceptTally(majority, rejects, highestView, decided);
      }
      assert answers[..|answers|] == answers;
    }

    method Forget(peer: nat, peerDone: int)
      requires peer < |done|
      modifies this`done, this`lowestSlot, this`slots
      ensures State() == GarbageCollection.Forget(old(State()), peer, peerDone)
    {
      if peerDone > done[peer] {
        done := done[peer := peerDone];
      }
      var mini := Minimum();
      var offset := mini - lowestSlot + 1;
      if offset > 0 {
        lowestSlot := lowestSlot + offset;
      }
      EraseOutdated();
      assert done == old(done)[peer := Max(old(done)[peer], peerDone)];
    }

    method Minimum() returns (mini: int)
      requires done != []
      ensures mini == MinOf(done)
    {
      mini := done[0];
      for i := 0 to |done|
        invariant mini == if i == 0 then done[0] else MinOf(done[..i])
      {
        if done[i] < mini {
          mini := done[i];
        }
        assert done[..i + 1][..i] == done[..i];
      }
      assert done[..|done|] == done;
    }

    method EraseOutdated()
      modifies this`slots
      ensures slots == map q | q in old(slots) && q >= lowestSlot :: old(slots)[q]
    {
      var todo := slots.Keys;
      while todo != {}
        invariant todo <= slots.Keys <= old(slots).Keys
        invariant slots == map k | k in old(slots) && (k in todo || k >= lowestSlot) :: old(slots)[k]
        decreases todo
      {
        var q := Next(todo);
        todo := todo - {q};
        if q < lowestSlot {
          slots := slots - {q};
        }
      }
    }
  }
}
