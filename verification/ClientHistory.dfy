/** What a client holds at any time, said of what it has called and been answered so far. */
module ClientHistory {
  import opened ClientSession

  // ---- One step ----

  /** The keep-alive under way gets a good answer. */
  predicate GoodAnswer(s: State, t: Step) {
    t.DoAnswer? && (s.at.NormalCall? || s.at.GraceCall?) && t.outcome.Reply? && t.outcome.success
  }

  /** Its epoch is no news, so that its lease counts. */
  predicate AdoptedAnswer(s: State, t: Step) {
    GoodAnswer(s, t) && t.outcome.epoch <= s.client.latestEpoch
  }

  /** A lock or unlock call goes out and is answered. */
  predicate LockAnswered(s: State, t: Step) {
    (t.CallLock? || t.CallUnlock?) && s.client.acceptRequests && s.now < s.client.leaseTimeout && t.answer.Delivered?
  }

  /** The grace loop runs once more. */
  predicate GraceTurn(s: State, t: Step) {
    t.DoTest? && s.at.GraceTest? && s.at.current < s.client.leaseTimeout + 45
  }

  /** A keep-alive returns 0 exactly on an adopted answer, -2 exactly when the grace loop picks no server, and -1 exactly
      when the grace period is over; else it goes on, from a new reading of the clock after a failed call only. */
  lemma KeepAliveGoesOn(s: State, t: Step)
    requires Enabled(s, t) && (t.DoTest? || t.DoAnswer?)
    ensures Apply(s, t).at ==
            if AdoptedAnswer(s, t) then Idle(0)
            else if t.DoAnswer? then
              var current := if GoodAnswer(s, t) then s.at.current else s.now;
              if s.at.NormalCall? then NormalTest(current) else GraceTest(current)
            else if s.at.NormalTest? then
              if s.at.current < s.client.leaseTimeout then NormalCall(s.at.current) else GraceTest(s.now)
            else if !GraceTurn(s, t) then Idle(-1)
            else if t.server == "" then Idle(-2)
            else GraceCall(s.at.current, t.server)
  {
  }

  /** A call for a lock that goes out returns 0 for a lock that was granted, -1 for one that was refused, -5 if the server
      waits and -2 if it does not answer; one for the release of a lock the same, but 0 also for an error other than the
      deadline. A call that does not go out returns -4 in jeopardy and -3 without a lease, and nothing changes. */
  lemma CodesMean(c: Client, now: int, answer: LockAnswer)
    ensures var (c', code) := Lock(c, now, answer);
      && c' == (if LockAnswered(State(now, c, Idle(0)), CallLock(answer)) then c.(currentLeader := answer.leader) else c)
      && code == (if !c.acceptRequests then -4
                  else if now >= c.leaseTimeout then -3
                  else match answer
                       case Delivered(success, _) => if success then 0 else -1
                       case Aborted => -5
                       case DeadlineExceeded => -2
                       case OtherError => -2)
    ensures Unlock(c, now, answer).0 == Lock(c, now, answer).0
    ensures Unlock(c, now, answer).1 ==
            if answer.OtherError? && c.acceptRequests && now < c.leaseTimeout then 0 else Lock(c, now, answer).1
  {
  }

  // ---- Who was named leader last ----

  /** The step names `leader`: the server whose answer was adopted in the grace loop, or the one a lock answer names. */
  ghost predicate NamesLeader(s: State, t: Step, leader: string) {
    || (AdoptedAnswer(s, t) && s.at.GraceCall? && leader == s.at.server)
    || (LockAnswered(s, t) && leader == t.answer.leader)
  }

  ghost predicate NobodyNamed(states: seq<State>, steps: seq<Step>, i: nat, k: nat)
    requires k <= |steps| < |states|
  {
    forall m, leader :: i <= m < k ==> !NamesLeader(states[m], steps[m], leader)
  }

  /** The client turns to the server that was named last, and to the initial address until one is. */
  lemma {:induction false} LeaderIsTheLastNamed(states: seq<State>, steps: seq<Step>, k: nat)
    requires FullRun(states, steps) && k < |states|
    ensures (NobodyNamed(states, steps, 0, k) && states[k].client.currentLeader == "127.0.0.1:50051")
            || exists m: nat :: m < k && NamesLeader(states[m], steps[m], states[k].client.currentLeader)
                                && NobodyNamed(states, steps, m + 1, k)
  {
    if k == 0 {
    } else {
      LeaderIsTheLastNamed(states, steps, k - 1);
      var s, t := states[k - 1], steps[k - 1];
      assert Enabled(s, t) && states[k] == Apply(s, t);
      StepNames(s, t);
      hide Enabled, Apply, NamesLeader, FullRun;
      if NamesLeader(s, t, states[k].client.currentLeader) {
        assert NobodyNamed(states, steps, k, k);
      } else if NobodyNamed(states, steps, 0, k - 1) {
        assert NobodyNamed(states, steps, 0, k);
      } else {
        var m: nat :| m < k - 1 && NamesLeader(states[m], steps[m], s.client.currentLeader)
          && NobodyNamed(states, steps, m + 1, k - 1);
        assert NobodyNamed(states, steps, m + 1, k);
      }
    }
  }

  lemma StepNames(s: State, t: Step)
    requires Enabled(s, t)
    ensures NamesLeader(s, t, Apply(s, t).client.currentLeader)
            || (Apply(s, t).client.currentLeader == s.client.currentLeader && forall leader :: !NamesLeader(s, t, leader))
  {
  }

  /** In particular, after a keep-alive that succeeds in the grace loop the client turns to the server that answered. */
  lemma GraceSuccessNamesServer(s: State, t: Step)
    requires Enabled(s, t) && AdoptedAnswer(s, t) && s.at.GraceCall?
    ensures var s' := Apply(s, t);
      && s'.at == Idle(0) && s'.client.currentLeader == s.at.server
      && s'.client.leaseTimeout == t.outcome.lease && s'.client.acceptRequests
  {
  }

  // ---- The latest epoch ----

  /** The latest epoch is the highest one that a good answer brought. */
  lemma {:induction false} EpochIsTheHighestHeard(states: seq<State>, steps: seq<Step>, k: nat)
    requires FullRun(states, steps) && k < |states|
    ensures states[k].client.latestEpoch >= 0
    ensures forall m :: 0 <= m < k && GoodAnswer(states[m], steps[m]) ==> steps[m].outcome.epoch <= states[k].client.latestEpoch
    ensures states[k].client.latestEpoch == 0
            || exists m :: 0 <= m < k && GoodAnswer(states[m], steps[m]) && steps[m].outcome.epoch == states[k].client.latestEpoch
  {
    if k == 0 {
    } else {
      EpochIsTheHighestHeard(states, steps, k - 1);
      var s, t := states[k - 1], steps[k - 1];
      assert Enabled(s, t) && states[k] == Apply(s, t);
      StepHears(s, t);
      hide Enabled, Apply, GoodAnswer;
    }
  }

  lemma StepHears(s: State, t: Step)
    requires Enabled(s, t)
    ensures Apply(s, t).client.latestEpoch ==
            if GoodAnswer(s, t) && t.outcome.epoch > s.client.latestEpoch then t.outcome.epoch else s.client.latestEpoch
  {
  }

  // ---- The lease ----

  /** The step fixes the lease: twice the time at `chubby_init`, 12 s at `chubby_open`, or what an adopted answer says. */
  ghost predicate FixesLease(s: State, t: Step, lease: int) {
    || (t.CallInit? && lease == 2 * s.now) || (t.CallOpen? && lease == s.now + 12)
    || (AdoptedAnswer(s, t) && lease == t.outcome.lease)
  }

  ghost predicate NothingFixed(states: seq<State>, steps: seq<Step>, i: nat, k: nat)
    requires k <= |steps| < |states|
  {
    forall m, lease :: i <= m < k ==> !FixesLease(states[m], steps[m], lease)
  }

  lemma {:induction false} LeaseIsTheLastFixed(states: seq<State>, steps: seq<Step>, k: nat)
    requires FullRun(states, steps) && k < |states|
    ensures (NothingFixed(states, steps, 0, k) && states[k].client.leaseTimeout == 0)
            || exists m: nat :: m < k && FixesLease(states[m], steps[m], states[k].client.leaseTimeout)
                                && NothingFixed(states, steps, m + 1, k)
  {
    if k == 0 {
    } else {
      LeaseIsTheLastFixed(states, steps, k - 1);
      var s, t := states[k - 1], steps[k - 1];
      assert Enabled(s, t) && states[k] == Apply(s, t);
      StepFixes(s, t);
      hide Enabled, Apply, FixesLease, FullRun;
      if FixesLease(s, t, states[k].client.leaseTimeout) {
        assert NothingFixed(states, steps, k, k);
      } else if NothingFixed(states, steps, 0, k - 1) {
        assert NothingFixed(states, steps, 0, k);
      } else {
        var m: nat :| m < k - 1 && FixesLease(states[m], steps[m], s.client.leaseTimeout)
          && NothingFixed(states, steps, m + 1, k - 1);
        assert NothingFixed(states, steps, m + 1, k);
      }
    }
  }

  lemma StepFixes(s: State, t: Step)
    requires Enabled(s, t)
    ensures FixesLease(s, t, Apply(s, t).client.leaseTimeout)
            || (Apply(s, t).client.leaseTimeout == s.client.leaseTimeout && forall lease :: !FixesLease(s, t, lease))
  {
  }

  // ---- The flag ----

  /** Requests are barred exactly when the grace loop has run since the last answer that was adopted. */
  lemma {:induction false} BarredSinceGrace(states: seq<State>, steps: seq<Step>, k: nat)
    requires FullRun(states, steps) && k < |states|
    ensures !states[k].client.acceptRequests <==>
            exists m :: 0 <= m < k && GraceTurn(states[m], steps[m])
                        && forall j :: m < j < k ==> !AdoptedAnswer(states[j], steps[j])
  {
    if k == 0 {
    } else {
      BarredSinceGrace(states, steps, k - 1);
      var s, t := states[k - 1], steps[k - 1];
      assert Enabled(s, t) && states[k] == Apply(s, t);
      StepBars(s, t);
      hide Enabled, Apply, GraceTurn, AdoptedAnswer;
      if AdoptedAnswer(s, t) {
        forall m | 0 <= m < k && GraceTurn(states[m], steps[m])
          ensures exists j :: m < j < k && AdoptedAnswer(states[j], steps[j])
        {
          assert m != k - 1;
          assert AdoptedAnswer(states[k - 1], steps[k - 1]);
        }
      } else if GraceTurn(s, t) {
        assert GraceTurn(states[k - 1], steps[k - 1]);
      } else if !s.client.acceptRequests {
        var m :| 0 <= m < k - 1 && GraceTurn(states[m], steps[m])
          && forall j :: m < j < k - 1 ==> !AdoptedAnswer(states[j], steps[j]);
        assert forall j :: m < j < k ==> !AdoptedAnswer(states[j], steps[j]);
      }
    }
  }

  lemma StepBars(s: State, t: Step)
    requires Enabled(s, t)
    ensures Apply(s, t).client.acceptRequests ==
            if AdoptedAnswer(s, t) then true else if GraceTurn(s, t) then false else s.client.acceptRequests
    ensures !(AdoptedAnswer(s, t) && GraceTurn(s, t))
  {
  }

  /** The number of the session is the one of the last `chubby_open`. */
  lemma SessionNumber(s: State, t: Step)
    requires Enabled(s, t)
    ensures Apply(s, t).client.clientId == if t.CallOpen? then t.id else s.client.clientId
    ensures Apply(s, t).now == if t.Pass? then s.now + t.seconds else s.now
  {
  }
}
