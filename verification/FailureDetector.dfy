/** The failure detector: what resets it, what trips it, and that a live leader's heartbeats keep it quiet. */
module FailureDetector {
  import opened PaxosTypes
  import opened Handlers
  import opened Cluster
  import opened Answers
  import opened Progress
  import opened Basics
  import opened Ring

  /** The detector follows the view: it is reset when the view rises, and left alone otherwise. */
  ghost predicate Calm(r: Server, r': Server) {
    && r.view <= r'.view && r'.electionHappened == r.electionHappened
    && if r.view < r'.view then !r'.leaderDead && r'.missedHeartbeats == 0
       else r'.leaderDead == r.leaderDead && r'.missedHeartbeats == r.missedHeartbeats
  }

  lemma CallersCalm(c: Cell, r: Server, i: nat, q: int, v: string, view: nat)
    ensures Calm(r, StartEffect(r, i, q, v).server) && Calm(r, CallStartEffect(r, i, q, v).server)
    ensures Calm(r, PassOnEffect(r, i, q, v).server)
    ensures q in r.slots ==> Calm(r, BeginEffect(c, r, q, v, view).server)
  {
  }

  lemma PromisersCalm(c: Cell, r: Server, i: nat, q: int, prop: int, view: nat)
    ensures Calm(r, DeliverPrepareEffect(c, r, i, q, prop, view).server)
  {
  }

  lemma AcceptorsCalm(r: Server, i: nat, q: int, view: nat, v: string)
    ensures Calm(r, DeliverAcceptEffect(r, i, q, view, v).server)
    ensures Calm(r, DeliverElectEffect(r, i, view).server)
  {
  }

  lemma ProposersCalm(c: Cell, r: Server, q: int, p: Proposer)
    ensures q in r.slots && p.phase.Preparing? ==> Calm(r, FinishPrepareEffect(c, r, q, p).server)
    ensures p.phase.Accepting? ==> Calm(r, FinishAcceptEffect(c, r, q, p).server)
  {
  }

  lemma CandidatesCalm(r: Server, i: nat, x: nat, el: Election)
    ensures Calm(r, FinishElectionEffect(r, i, x, el).server)
  {
  }

  lemma LearnersCalm(r: Server, i: nat, q: int, v: string, decided: map<int, string>)
    ensures Calm(r, DeliverLearnEffect(r, i, q, v).server) && Calm(r, DecideAll(r, decided))
  {
  }

  /** Only detections and heartbeats touch the detector while the view stands. */
  lemma OthersCalm(c: Cell, s: State, t: Step, j: nat)
    requires |s.servers| == c.n && j < c.n && Enabled(c, s, t)
    requires !(t.i == j && (t.Detect? || t.DeliverHeartbeat?))
    ensures Calm(s.servers[j], Apply(c, s, t).servers[j])
  {
    if t.i == j {
      var r := s.servers[j];
      match t {
        case CallStart(i, q, v) => CallersCalm(c, r, i, q, v, 0);
        case PassOn(i, q, v) => CallersCalm(c, r, i, q, v, 0);
        case ArriveForward(i, q, v) => CallersCalm(c, r, i, q, v, 0);
        case Begin(i, q, v, view) => CallersCalm(c, r, i, q, v, view);
        case DeliverPrepare(i, q, prop, view) => PromisersCalm(c, r, i, q, prop, view);
        case DeliverAccept(i, q, view, v) => AcceptorsCalm(r, i, q, view, v);
        case DeliverElect(i, view) => AcceptorsCalm(r, i, 0, view, "");
        case FinishPrepare(i, q) => ProposersCalm(c, r, q, s.proposers[(i, q)]);
        case FinishAccept(i, q) => ProposersCalm(c, r, q, s.proposers[(i, q)]);
        case FinishElection(i, x) => CandidatesCalm(r, i, x, s.elections[(i, x)]);
        case DeliverLearn(i, q, v) => LearnersCalm(r, i, q, v, map[]);
        case AnswerHeartbeat(i, decided) => LearnersCalm(r, i, 0, "", decided);
        case _ =>
      }
      hide StartEffect, CallStartEffect, PassOnEffect, BeginEffect, DeliverPrepareEffect, DeliverAcceptEffect;
      hide DeliverElectEffect, FinishPrepareEffect, FinishAcceptEffect, FinishElectionEffect, DeliverLearnEffect, DecideAll;
    }
  }

  // ---- Heartbeats ----

  /** Server `j` executes a heartbeat of another server in a view not below its own. */
  ghost predicate Hears(c: Cell, s: State, t: Step, j: nat) {
    && t.DeliverHeartbeat? && t.i == j && Owner(t.view, c.n) != j
    && j < |s.servers| && s.servers[j].view <= t.view
  }

  lemma FollowersCopies(r: Server, r1: Server, r': Server, batch: map<int, string>)
    requires r1.slots == r.slots && OnlyCopies(r1, r', batch) && r'.view == r1.view
    ensures OnlyCopies(r, r', batch)
  {
    assert r1.Decided() == r.Decided();
  }

  /** Such a heartbeat makes the server follow: it takes over the view and `done`, holds the leader for alive, and sends
      back exactly the slots it had decided and the leader had not sent. */
  lemma HeartbeatIsFollowed(c: Cell, s: State, t: Step, j: nat)
    requires AllOk(c, s) && j < c.n && Enabled(c, s, t) && Hears(c, s, t, j)
    ensures var r, s' := s.servers[j], Apply(c, s, t);
      && |s'.servers| == c.n
      && var r' := s'.servers[j];
      && r'.view == t.view && r'.missedHeartbeats == 0 && r'.done == t.done
      && r' == r.(view := t.view, done := t.done, missedHeartbeats := 0, leaderDead := r'.leaderDead, slots := r'.slots)
      && OnlyCopies(r, r', t.decided)
      && (if r.view < t.view then !r'.leaderDead else r'.leaderDead == r.leaderDead)
      && exists m: map<int, string> ::
           && s'.net == s.net + {HeartbeatAns(Owner(t.view, c.n), m)}
           && forall q :: (q in m <==> q in r.Decided() && q !in t.decided) && (q in m ==> m[q] == r.Decided()[q])
  {
    var m := s.servers[j].Decided() - t.decided.Keys;
    var r1 := Adopt(s.servers[j], t.view).(done := t.done, missedHeartbeats := 0);
    BatchIsCopied(r1, t.decided);
    FollowersCopies(s.servers[j], r1, DecideAll(r1, t.decided), t.decided);
    hide OnlyCopies, DecideAll;
    assert Apply(c, s, t).net == s.net + {HeartbeatAns(Owner(t.view, c.n), m)};
  }

  /** A heartbeat of a lower view changes nothing, and a server's own one only its counter. */
  lemma OtherHeartbeatsChangeNothing(c: Cell, s: State, t: Step, j: nat)
    requires AllOk(c, s) && j < c.n && Enabled(c, s, t) && t.DeliverHeartbeat? && t.i == j && !Hears(c, s, t, j)
    ensures var s' := Apply(c, s, t);
      && s'.net == s.net && |s'.servers| == c.n
      && s'.servers[j] ==
         if Owner(t.view, c.n) == j then s.servers[j].(missedHeartbeats := 0) else s.servers[j]
  {
    assert s.net + {} == s.net;
  }

  // ---- Detections ----

  ghost predicate NextOwned(c: Cell, j: nat, view: nat, target: nat) {
    && view < target && Owner(target, c.n) == j
    && forall w :: view < w < target ==> Owner(w, c.n) != j
  }

  /** The fourth detection in a row gives the leader up, and the server stands for the next view it owns, unless it owns
      the view it is in; any other detection only counts. */
  lemma DetectionTrips(c: Cell, s: State, j: nat, x: nat)
    requires AllOk(c, s) && j < c.n && Enabled(c, s, Detect(j, x))
    ensures var r, s' := s.servers[j], Apply(c, s, Detect(j, x));
      && |s'.servers| == c.n
      && if r.missedHeartbeats < 3 then
           && s'.servers[j] == r.(missedHeartbeats := r.missedHeartbeats + 1)
           && s'.elections == s.elections && s'.net == s.net
         else
           && s'.servers[j] == r.(missedHeartbeats := 0, leaderDead := true, electionHappened := true)
           && if Owner(r.view, c.n) == j then s'.elections == s.elections && s'.net == s.net
              else
                exists target: nat ::
                  && NextOwned(c, j, r.view, target)
                  && s'.elections == s.elections[(j, x) := Election(target, [])] && s'.net == s.net + {ElectReq(target)}
  {
    var r := s.servers[j];
    assert s.net + {} == s.net;
    if r.missedHeartbeats >= 3 && Owner(r.view, c.n) != j {
      CandidacyIsNext(r.view, j, c.n);
      assert NextOwned(c, j, r.view, Candidacy(r.view, j, c.n));
    }
  }

  lemma ElectionsStartByDetection(c: Cell, s: State, t: Step, j: nat, x: nat)
    requires Enabled(c, s, t) && (j, x) !in s.elections && (j, x) in Apply(c, s, t).elections
    ensures t == Detect(j, x)
  {
  }

  // ---- Over runs ----

  ghost predicate Detects(steps: seq<Step>, k: nat, j: nat) {
    k < |steps| && steps[k].Detect? && steps[k].i == j
  }

  /** The detections that the counter of `j` counts: as many as it says, one after the other, and no heartbeat heard since
      the first. */
  ghost predicate CountedAt(c: Cell, states: seq<State>, steps: seq<Step>, k: nat, j: nat, d: seq<nat>)
    requires k < |states| == |steps| + 1 && j < |states[k].servers|
  {
    && |d| == states[k].servers[j].missedHeartbeats
    && (forall a :: 0 <= a < |d| ==> d[a] < k && Detects(steps, d[a], j))
    && (forall a, b :: 0 <= a < b < |d| ==> d[a] < d[b])
    && (d != [] ==> forall m :: d[0] < m < k ==> !Hears(c, states[m], steps[m], j))
  }

  lemma {:induction false} CounterCounts(c: Cell, states: seq<State>, steps: seq<Step>, k: nat, j: nat) returns (d: seq<nat>)
    requires Run(c, states, steps) && k < |states| && j < c.n
    ensures |states[k].servers| == c.n && CountedAt(c, states, steps, k, j, d)
  {
    hide Enabled, Apply, Basic, CountedAt, Init, Hears;
    SameServers(c, states, steps, k);
    if k == 0 {
      NothingCounted(c, states, steps, j);
      d := [];
    } else {
      SameServers(c, states, steps, k - 1);
      d := CounterCounts(c, states, steps, k - 1, j);
      CounterMoves(c, states[k - 1], steps[k - 1], j);
      d := CountsOneMore(c, states, steps, k, j, d);
    }
  }

  lemma SameServers(c: Cell, states: seq<State>, steps: seq<Step>, k: nat)
    requires Run(c, states, steps) && k < |states|
    ensures AllOk(c, states[k])
  {
    RunBasic(c, states, steps, k);
  }

  lemma NothingCounted(c: Cell, states: seq<State>, steps: seq<Step>, j: nat)
    requires |states| == |steps| + 1 && states[0] == Init(c) && j < c.n
    ensures CountedAt(c, states, steps, 0, j, [])
  {
  }

  lemma CountsOneMore(c: Cell, states: seq<State>, steps: seq<Step>, k: nat, j: nat, d: seq<nat>) returns (d': seq<nat>)
    requires 0 < k < |states| == |steps| + 1 && j < |states[k - 1].servers| == |states[k].servers|
    requires CountedAt(c, states, steps, k - 1, j, d)
    requires var missed, missed' := states[k - 1].servers[j].missedHeartbeats, states[k].servers[j].missedHeartbeats;
      && (missed' == 0 || missed' == missed || (missed' == missed + 1 && Detects(steps, k - 1, j)))
      && (Hears(c, states[k - 1], steps[k - 1], j) ==> missed' == 0)
    ensures CountedAt(c, states, steps, k, j, d')
  {
    hide Hears;
    var missed := states[k].servers[j].missedHeartbeats;
    if missed == 0 {
      d' := [];
    } else if missed != states[k - 1].servers[j].missedHeartbeats {
      d' := d + [k - 1];
    } else {
      d' := d;
    }
  }

  lemma CounterMoves(c: Cell, s: State, t: Step, j: nat)
    requires AllOk(c, s) && j < c.n && Enabled(c, s, t)
    ensures var missed, missed' := s.servers[j].missedHeartbeats, Apply(c, s, t).servers[j].missedHeartbeats;
      && (missed' == 0 || missed' == missed || (missed' == missed + 1 && t.Detect? && t.i == j))
      && (Hears(c, s, t, j) ==> missed' == 0)
  {
    if t.i == j && t.Detect? {
      DetectionTrips(c, s, j, t.x);
    } else if t.i == j && t.DeliverHeartbeat? {
      if Hears(c, s, t, j) {
        HeartbeatIsFollowed(c, s, t, j);
      } else {
        OtherHeartbeatsChangeNothing(c, s, t, j);
      }
    } else {
      OthersCalm(c, s, t, j);
    }
    hide Apply, Enabled;
  }

  /** Between any four detections the server hears a heartbeat. */
  ghost predicate HearsInTime(c: Cell, states: seq<State>, steps: seq<Step>, j: nat)
    requires |states| == |steps| + 1
  {
    forall d: seq<nat> | |d| == 4 && (forall a :: 0 <= a < 4 ==> Detects(steps, d[a], j)) && d[0] < d[1] < d[2] < d[3] ::
      exists m :: d[0] < m < d[3] && Hears(c, states[m], steps[m], j)
  }

  /** A server that hears a leader of a view not below its own between any four detections never stands for election. */
  lemma FollowersDoNotStand(c: Cell, states: seq<State>, steps: seq<Step>, k: nat, j: nat, x: nat)
    requires Run(c, states, steps) && HearsInTime(c, states, steps, j) && k < |steps| && j < c.n
    requires (j, x) in states[k + 1].elections
    ensures (j, x) in states[k].elections
  {
    var s, t := states[k], steps[k];
    assert Enabled(c, s, t) && states[k + 1] == Apply(c, s, t);
    RunBasic(c, states, steps, k);
    if (j, x) !in s.elections {
      ElectionsStartByDetection(c, s, t, j, x);
      DetectionTrips(c, s, j, x);
      hide Enabled, Apply, Run;
      var d := CounterCounts(c, states, steps, k, j);
      FewerThanThree(c, states, steps, k, j, d);
    }
  }

  lemma FewerThanThree(c: Cell, states: seq<State>, steps: seq<Step>, k: nat, j: nat, d: seq<nat>)
    requires k < |steps| && |states| == |steps| + 1 && j < |states[k].servers|
    requires CountedAt(c, states, steps, k, j, d) && Detects(steps, k, j) && HearsInTime(c, states, steps, j)
    ensures |d| < 3
  {
    hide Hears;
    if |d| >= 3 {
      HeardBetween(c, states, steps, j, [d[0], d[1], d[2], k]);
    }
  }

  lemma HeardBetween(c: Cell, states: seq<State>, steps: seq<Step>, j: nat, d: seq<nat>)
    requires |states| == |steps| + 1 && HearsInTime(c, states, steps, j)
    requires |d| == 4 && (forall a :: 0 <= a < 4 ==> Detects(steps, d[a], j)) && d[0] < d[1] < d[2] < d[3]
    ensures exists m :: d[0] < m < d[3] && Hears(c, states[m], steps[m], j)
  {
  }
}
