/** A slot that a heartbeat copies is decided but never written to the database: the Learn that comes later is dropped. */
module CopiedSlots {
  import opened PaxosTypes
  import opened Handlers
  import opened Cluster
  import opened Decisions
  import opened Progress
  import opened Basics
  import opened Replicas
  import opened Scenarios

  /** Step `m` is the one by which server `j` first decided slot `q`. */
  ghost predicate FirstDecides(states: seq<State>, steps: seq<Step>, m: nat, j: nat, q: int) {
    && m < |steps| && |states| == |steps| + 1
    && j < |states[m].servers| && j < |states[m + 1].servers|
    && q !in states[m].servers[j].Decided() && q in states[m + 1].servers[j].Decided()
  }

  lemma DecidedStays(c: Cell, states: seq<State>, steps: seq<Step>, m: nat, k: nat, j: nat, q: int)
    requires Run(c, states, steps) && m <= k < |states| && j < c.n
    ensures |states[m].servers| == |states[k].servers| == c.n
    ensures q in states[m].servers[j].Decided() ==> q in states[k].servers[j].Decided()
  {
    hide Enabled, Apply;
    OnlyForward(c, states, steps, m, k);
    RunBasic(c, states, steps, m);
    DecisionsStay(states[m].servers[j], states[k].servers[j]);
  }

  /** Every decision has a first step. */
  lemma {:induction false} SomeStepDecides(c: Cell, states: seq<State>, steps: seq<Step>, k: nat, j: nat, q: int)
    returns (m: nat)
    requires Run(c, states, steps) && k < |states| && j < c.n
    requires |states[k].servers| == c.n && q in states[k].servers[j].Decided()
    ensures m < k && FirstDecides(states, steps, m, j, q)
  {
    hide Enabled, Apply;
    if k == 0 {
      assert false;
    } else {
      DecidedStays(c, states, steps, k - 1, k, j, q);
      if q in states[k - 1].servers[j].Decided() {
        m := SomeStepDecides(c, states, steps, k - 1, j, q);
      } else {
        m := k - 1;
      }
    }
  }

  /** An entry was applied by a Learn that was the first to decide its slot. */
  lemma {:induction false} AppliedByLearn(
    c: Cell, states: seq<State>, steps: seq<Step>, k: nat, j: nat, e: Entry) returns (m: nat)
    requires Run(c, states, steps) && k < |states| && j < c.n && e in Applied(states, steps, k, j)
    ensures m < k && FirstDecides(states, steps, m, j, e.0) && steps[m].DeliverLearn?
  {
    hide Enabled, Apply, Brought;
    DecidedStays(c, states, steps, if k == 0 then 0 else k - 1, k, j, e.0);
    if e in Applied(states, steps, k - 1, j) {
      m := AppliedByLearn(c, states, steps, k - 1, j, e);
    } else {
      m := k - 1;
      LearnedDecides(c, states, steps, m, j, e);
    }
  }

  lemma LearnedDecides(c: Cell, states: seq<State>, steps: seq<Step>, m: nat, j: nat, e: Entry)
    requires Run(c, states, steps) && m < |steps| && j < c.n && e in Brought(states[m], steps[m], j)
    ensures FirstDecides(states, steps, m, j, e.0) && steps[m].DeliverLearn?
  {
    StepForward(c, states, steps, m, j);
    var r, t := states[m].servers[j], steps[m];
    LearnWrites(r, t.q, t.v);
  }

  /** A slot that server `j` decided was written to its database exactly when the step that first decided it there was a
      Learn, and not the copy of a heartbeat. */
  lemma WrittenExactlyWhenLearnedFirst(
    c: Cell, states: seq<State>, steps: seq<Step>, k: nat, j: nat, m: nat, q: int)
    requires Run(c, states, steps) && m < k < |states| && j < c.n && FirstDecides(states, steps, m, j, q)
    ensures q in SlotsOf(Applied(states, steps, k, j)) <==> steps[m].DeliverLearn?
  {
    hide Enabled, Apply, Brought;
    if q in SlotsOf(Applied(states, steps, k, j)) {
      var e :| e in Applied(states, steps, k, j) && e.0 == q;
      var m' := AppliedByLearn(c, states, steps, k, j, e);
      if m < m' {
        DecidedStays(c, states, steps, m + 1, m', j, q);
      } else if m' < m {
        DecidedStays(c, states, steps, m' + 1, m, j, q);
      }
    }
    if steps[m].DeliverLearn? {
      FirstLearnIsApplied(c, states, steps, m, j, q);
      AppliedStays(states, steps, m + 1, k, j);
    }
  }

  lemma FirstLearnIsApplied(c: Cell, states: seq<State>, steps: seq<Step>, m: nat, j: nat, q: int)
    requires Run(c, states, steps) && m < |steps| && j < c.n && FirstDecides(states, steps, m, j, q)
    requires steps[m].DeliverLearn?
    ensures q in SlotsOf(Applied(states, steps, m + 1, j))
  {
    StepForward(c, states, steps, m, j);
    var r, t := states[m].servers[j], steps[m];
    LearnDecides(r, t.q, t.v);
    var e := (t.q, t.v);
    assert e in Brought(states[m], t, j);
    assert e in Applied(states, steps, m + 1, j);
  }

  lemma {:induction false} AppliedStays(states: seq<State>, steps: seq<Step>, m: nat, k: nat, j: nat)
    requires m <= k < |states| == |steps| + 1
    ensures Applied(states, steps, m, j) <= Applied(states, steps, k, j)
  {
    if m == k {
    } else {
      AppliedStays(states, steps, m, k - 1, j);
    }
  }

  /** It happens, with the program as written and under any repairs: two servers decide a slot alike, one by Learn and the
      other by a heartbeat, and their databases differ. */
  lemma CopiesLeaveDatabasesApart(c: Cell) returns (s: State)
    requires c.n == 3
    ensures Reaches(c, s) && |s.servers| == 3
    ensures 1 in s.servers[0].Decided() && s.servers[1].Decided() == s.servers[0].Decided()
    ensures "p" in s.servers[0].db && "p" !in s.servers[1].db
  {
    hide Reaches, Enabled, Apply;
    var kv := "p#FREE";
    s := OneLearns(c, kv);
    ParsesBack("p", "FREE");
    assert "p" + "#" + "FREE" == kv;
    s := CopyIt(c, s);
  }

  /** Leader 0 gets `kv` accepted by server 2 and itself, and learns it. */
  lemma OneLearns(c: Cell, kv: string) returns (s: State)
    requires c.n == 3 && kv != ""
    ensures Reaches(c, s) && |s.servers| == 3 && s.servers[1] == InitServer(c, 1)
    ensures s.servers[0].view == 0 && s.servers[0].Decided() == map[1 := kv] && s.servers[0].db == ApplyToDb(map[], kv)
  {
    hide Reaches, Enabled, Apply;
    var a, b;
    s, a, b := TwoAccept(c, 0, kv);
    s := ConcludeIt(c, s, 0, [Some(a), None, Some(b)]);
    LearnWrites(s.servers[0], 1, kv);
    LearnDecides(s.servers[0], 1, kv);
    s := LearnIt(c, s, 0, kv);
  }

  /** A heartbeat of server 0 takes its decisions to server 1. */
  lemma CopyIt(c: Cell, s: State) returns (s': State)
    requires Reaches(c, s) && c.n == 3 == |s.servers| && s.servers[0].view == 0 && s.servers[1] == InitServer(c, 1)
    ensures Reaches(c, s') && |s'.servers| == 3 && s'.servers[0] == s.servers[0]
    ensures s'.servers[1].Decided() == s.servers[0].Decided() && s'.servers[1].db == map[]
  {
    hide Reaches;
    var done, decided := Repeat(s.servers[0].done, 2), s.servers[0].Decided();
    var s1 := Then(c, s, SendHeartbeat(0, 1));
    assert HeartbeatReq(0, done, decided) in s1.net;
    s' := Then(c, s1, DeliverHeartbeat(1, 0, done, decided));
    BatchDecides(s.servers[1].(done := done, missedHeartbeats := 0), decided);
  }
}
