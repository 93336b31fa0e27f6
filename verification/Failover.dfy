/** A server that took its master for dead grants no lock until every lease of that master is over. Times are nanoseconds
    of one clock. */
module Failover {
  import opened PaxosTypes
  import Handlers
  import opened LockService

  const RESET_DELAY := 40 * SECOND

  /** `timers` holds when each of the sleeping reset threads is due. */
  datatype State = State(now: int, server: Server, timers: multiset<int>)

  datatype Step =
    | Pass(time: nat)
    | Detect
    | Fire(due: int)
    | Handle(server: Server) // any other handler: none of them touches `leader_election_happened`
    | Lock(locks: LockState, path: string, client: string, mode: string)

  ghost predicate Enabled(s: State, t: Step) {
    match t
    case Detect => s.server.me < s.server.numServers
    case Fire(due) => due in s.timers && due <= s.now
    case Handle(server) => server.electionHappened == s.server.electionHappened
    case Lock(locks, _, _, _) => locks.waiting == s.server.electionHappened
    case Pass(_) => true
  }

  /** The call of `DetectLeaderFailure` that gives the master up. */
  predicate Suspects(s: State, t: Step) {
    t.Detect? && s.server.missedHeartbeats >= 3
  }

  function Apply(s: State, t: Step): State
    requires Enabled(s, t)
  {
    match t
    case Pass(time) => s.(now := s.now + time)
    case Detect =>
      s.(server := Handlers.DetectLeaderFailure(s.server).0,
         timers := if Suspects(s, t) then s.timers + multiset{s.now + RESET_DELAY} else s.timers)
    case Fire(due) => s.(server := s.server.(electionHappened := false), timers := s.timers - multiset{due})
    case Handle(server) => s.(server := server)
    case Lock(_, _, _, _) => s
  }

  predicate Grants(t: Step) {
    t.Lock? && AcquireLock(t.locks, t.path, t.client, t.mode).1 == NO_ERROR
  }

  ghost predicate Run(states: seq<State>, steps: seq<Step>) {
    && |states| == |steps| + 1
    && forall k :: 0 <= k < |steps| ==> Enabled(states[k], steps[k]) && states[k + 1] == Apply(states[k], steps[k])
  }

  /** No reset is due before `until`. */
  ghost predicate ResetsAfter(s: State, until: int) {
    forall due :: due in s.timers ==> until <= due
  }

  ghost predicate Waits(s: State, until: int) {
    until <= s.now || (s.server.electionHappened && ResetsAfter(s, until) && until <= s.now + RESET_DELAY)
  }

  lemma {:induction false} KeepsWaiting(states: seq<State>, steps: seq<Step>, k: nat, until: int)
    requires Run(states, steps) && k < |states| && Waits(states[0], until)
    ensures Waits(states[k], until)
  {
    if k == 0 {
    } else {
      KeepsWaiting(states, steps, k - 1, until);
      assert Enabled(states[k - 1], steps[k - 1]);
    }
  }

  /** However detections and reset timers interleave after it, a detection that finds no reset outstanding (or none due
      before `until`) keeps locks from being granted before `until`. */
  lemma NoGrantBefore(states: seq<State>, steps: seq<Step>, k: nat, until: int)
    requires Run(states, steps) && 0 < k < |steps| && Suspects(states[0], steps[0])
    requires ResetsAfter(states[0], until) && until <= states[0].now + RESET_DELAY
    requires Grants(steps[k])
    ensures until <= states[k].now
  {
    assert Enabled(states[0], steps[0]);
    KeepsWaiting(states[1..], steps[1..], k - 1, until);
    assert Enabled(states[k], steps[k]);
  }

  /** The failover wait outlasts the leases: one that the master issued before it crashed, and so before the detection,
      is over when this server grants its first lock. */
  lemma WaitOutlastsLeases(
    states: seq<State>, steps: seq<Step>, k: nat, master: LockState, client: string, issued: int, crashed: int)
    requires Run(states, steps) && 0 < k < |steps| && Suspects(states[0], steps[0]) && states[0].timers == multiset{}
    requires issued <= crashed <= states[0].now
    requires Grants(steps[k])
    ensures KeepAlive(master, client, issued).leases[client] < states[k].now
    ensures states[0].now + 40_000_000_000 <= states[k].now
  {
    NoGrantBefore(states, steps, k, states[0].now + RESET_DELAY);
  }

  /** Such a detection sets a reset for 40 s later, and nothing but a reset that is due lowers the flag again. */
  lemma ResetsAreSet(s: State, t: Step)
    requires Enabled(s, t)
    ensures Suspects(s, t) ==>
              Apply(s, t).server.electionHappened && Apply(s, t).timers == s.timers + multiset{s.now + 40_000_000_000}
    ensures !Suspects(s, t) && !t.Fire? ==>
              Apply(s, t).server.electionHappened == s.server.electionHappened && Apply(s, t).timers == s.timers
    ensures t.Fire? ==>
              t.due <= s.now && !Apply(s, t).server.electionHappened && Apply(s, t).timers == s.timers - multiset{t.due}
  {
  }

  ghost predicate NeverGrantsBefore(s: State, until: int) {
    forall states: seq<State>, steps, k: nat | Run(states, steps) && states[0] == s && k < |steps| && Grants(steps[k]) ::
      until <= states[k].now
  }

  /** Exactly when the wait is long enough: when no reset that an earlier detection left behind is due before `until`. */
  lemma WaitsExactlyWhen(s: State, until: int)
    requires until <= s.now + RESET_DELAY
    ensures NeverGrantsBefore(s, until) <==>
            until <= s.now || (s.server.electionHappened && ResetsAfter(s, until))
  {
    if Waits(s, until) {
      forall states: seq<State>, steps, k: nat | Run(states, steps) && states[0] == s && k < |steps| && Grants(steps[k])
        ensures until <= states[k].now
      {
        KeepsWaiting(states, steps, k, until);
        assert Enabled(states[k], steps[k]);
      }
    } else {
      EarlyGrant(s, until);
    }
  }

  lemma EarlyGrant(s: State, until: int)
    requires s.now < until && !(s.server.electionHappened && ResetsAfter(s, until))
    ensures !NeverGrantsBefore(s, until)
  {
    var lock := Lock(LockState(map[], map[], 0, {}, map["c" := 0], false), "p", "c", SHARED);
    assert Grants(lock);
    if !s.server.electionHappened {
      var states, steps := [s, s], [lock];
      assert Run(states, steps) && states[0] == s && Grants(steps[0]);
    } else {
      var due :| due in s.timers && due < until;
      var s1 := Apply(s, Pass(if due > s.now then due - s.now else 0));
      var s2 := Apply(s1, Fire(due));
      var states, steps := [s, s1, s2, s2], [Pass(if due > s.now then due - s.now else 0), Fire(due), lock];
      assert Run(states, steps) && states[0] == s && Grants(steps[2]);
    }
  }
}
