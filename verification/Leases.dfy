/** Leases are conservative: a client stops before its server gives its lease away. Client and server read one clock. */
module Leases {
  import opened LockService

  /** Before the lease runs out by this much, a waiting keep-alive resumes. */
  const MARGIN := SECOND / 10

  /** A keep-alive that waits in the server, up to the time fixed when it arrived. */
  datatype Waiting = Waiting(id: int, client: string, wakeAt: int)

  /** `answers` are all the leases ever sent back, in whole seconds; `adopted` the ones the clients go by, once they
      have adopted one. */
  datatype State = State(
    now: int, server: LockState, waiting: set<Waiting>, answers: set<(string, int)>, adopted: map<string, int>)

  datatype Step =
    | Pass(time: nat)
    | Arrive(id: int, client: string)
    | Resume(call: Waiting)
    | Adopt(client: string, lease: int)
    | Reap
    | Other(other: Call)

  /** The lease a call finds; none at all reads as the clock's origin. */
  function Lease(s: LockState, client: string): int {
    if client in s.leases then s.leases[client] else 0
  }

  predicate Enabled(s: State, t: Step) {
    match t
    case Resume(call) =>
      call in s.waiting && (call.wakeAt <= s.now || Lease(s.server, call.client) <= s.now)
    case Adopt(client, lease) => (client, lease) in s.answers
    case Other(call) => call.Acquire? || call.Release? || call.Wait?
    case _ => true
  }

  function Apply(fix: LockRepairs, s: State, t: Step): State {
    match t
    case Pass(time) => s.(now := s.now + time)
    case Arrive(id, client) =>
      s.(waiting := s.waiting + {Waiting(id, client, Lease(s.server, client) - MARGIN)})
    case Resume(call) =>
      var server := KeepAlive(s.server, call.client, s.now);
      s.(server := server, waiting := s.waiting - {call},
         answers := s.answers + {(call.client, server.leases[call.client] / SECOND)})
    case Adopt(client, lease) => s.(adopted := s.adopted[client := lease])
    case Reap => s.(server := DropExpired(s.server, s.now))
    case Other(call) => s.(server := Serve(fix, World(s.server, {}), call).0.server)
  }

  ghost predicate Run(fix: LockRepairs, states: seq<State>, steps: seq<Step>) {
    && |states| == |steps| + 1
    && forall k :: 0 <= k < |steps| ==> Enabled(states[k], steps[k]) && states[k + 1] == Apply(fix, states[k], steps[k])
  }

  ghost predicate FullRun(fix: LockRepairs, states: seq<State>, steps: seq<Step>) {
    Run(fix, states, steps) && states[0].answers == {} && states[0].adopted == map[] && states[0].server.leases == map[]
  }

  lemma OthersKeepLeases(fix: LockRepairs, s: LockState, call: Call)
    requires call.Acquire? || call.Release? || call.Wait?
    ensures Serve(fix, World(s, {}), call).0.server.leases == s.leases
  {
  }

  /** A keep-alive that arrives waits until 100 ms before the lease it finds is over, or at once without a lease; when it
      resumes, it renews the lease by 12 s and sends that back in whole seconds. */
  lemma KeepAliveWaitsAndRenews(fix: LockRepairs, s: State, id: int, client: string, d: nat)
    requires s.now + d >= 0
    ensures var lease := if client in s.server.leases then s.server.leases[client] else 0;
      var call := Waiting(id, client, lease - 100_000_000);
      var arrived := Apply(fix, s, Arrive(id, client));
      var later := Apply(fix, arrived, Pass(d));
      && call in arrived.waiting
      && (Enabled(later, Resume(call)) <==> s.now + d >= lease - 100_000_000)
      && var s' := Apply(fix, later, Resume(call));
      && client in s'.server.leases && s'.server.leases[client] == s.now + d + 12_000_000_000
      && forall answer :: answer in s'.answers && answer !in s.answers ==>
           && answer.0 == client
           && answer.1 * 1_000_000_000 <= s'.server.leases[client] < (answer.1 + 1) * 1_000_000_000
  {
  }

  // ---- The client's test ----

  /** As long as `lease` seconds are not over, the server keeps the client's entry at least that long. */
  predicate Covered(s: State, client: string, lease: int) {
    lease * SECOND <= s.now || (client in s.server.leases && lease * SECOND <= s.server.leases[client])
  }

  ghost predicate Inv(s: State) {
    && (forall c :: c in s.server.leases ==> s.server.leases[c] <= s.now + LEASE_TIMEOUT)
    && (forall a :: a in s.answers ==> Covered(s, a.0, a.1))
    && forall c :: c in s.adopted ==> Covered(s, c, s.adopted[c])
  }

  lemma StaysCovered(fix: LockRepairs, s: State, t: Step, client: string, lease: int)
    requires Inv(s) && Enabled(s, t) && Covered(s, client, lease)
    ensures Covered(Apply(fix, s, t), client, lease)
  {
    if t.Other? {
      OthersKeepLeases(fix, s.server, t.other);
    }
  }

  lemma StepKeeps(fix: LockRepairs, s: State, t: Step)
    requires Inv(s) && Enabled(s, t)
    ensures Inv(Apply(fix, s, t))
  {
    var s' := Apply(fix, s, t);
    forall client, lease | Covered(s, client, lease)
      ensures Covered(s', client, lease)
    {
      StaysCovered(fix, s, t, client, lease);
    }
    if t.Other? {
      OthersKeepLeases(fix, s.server, t.other);
    }
    hide Serve;
  }

  lemma {:induction false} RunKeeps(fix: LockRepairs, states: seq<State>, steps: seq<Step>, k: nat)
    requires Run(fix, states, steps) && Inv(states[0]) && k < |states|
    ensures Inv(states[k])
  {
    if k == 0 {
    } else {
      RunKeeps(fix, states, steps, k - 1);
      assert Enabled(states[k - 1], steps[k - 1]);
      StepKeeps(fix, states[k - 1], steps[k - 1]);
    }
  }

  /** Whenever the test in whole seconds passes on an adopted lease, the server's entry is there and has not expired, so
      that an acquire finds a session. */
  lemma ClientTestIsSafe(fix: LockRepairs, states: seq<State>, steps: seq<Step>, k: nat, client: string)
    requires FullRun(fix, states, steps) && k < |states|
    requires client in states[k].adopted && states[k].now / SECOND < states[k].adopted[client]
    ensures var s := states[k];
      && client in s.server.leases && s.now < s.server.leases[client]
      && forall path, mode ::
           AcquireLock(s.server, path, client, mode).1 != Answer(false, "NO_CLIENT_SESSION")
  {
    RunKeeps(fix, states, steps, k);
    var s := states[k];
    assert Covered(s, client, s.adopted[client]);
    assert s.now < s.adopted[client] * SECOND;
  }

  // ---- Keep-alives that resume in time ----

  lemma {:induction false} ClockOn(fix: LockRepairs, states: seq<State>, steps: seq<Step>, i: nat, k: nat)
    requires Run(fix, states, steps) && i <= k < |states|
    ensures states[i].now <= states[k].now
  {
    if i == k {
    } else {
      ClockOn(fix, states, steps, i, k - 1);
      assert states[k] == Apply(fix, states[k - 1], steps[k - 1]);
    }
  }

  /** The entry has this lease or a later one, unless the time has come. */
  predicate Leased(s: State, client: string, lease: int) {
    s.now < lease ==> client in s.server.leases && lease <= s.server.leases[client]
  }

  lemma StepLeased(fix: LockRepairs, s: State, t: Step, client: string, lease: int)
    requires Inv(s) && Enabled(s, t) && Leased(s, client, lease)
    ensures Leased(Apply(fix, s, t), client, lease)
  {
    if t.Other? {
      OthersKeepLeases(fix, s.server, t.other);
    }
  }

  lemma {:induction false} StaysLeased(
    fix: LockRepairs, states: seq<State>, steps: seq<Step>, i: nat, k: nat, client: string, lease: int)
    requires Run(fix, states, steps) && Inv(states[0]) && i <= k < |states| && Leased(states[i], client, lease)
    ensures Leased(states[k], client, lease)
  {
    if i == k {
    } else {
      StaysLeased(fix, states, steps, i, k - 1, client, lease);
      RunKeeps(fix, states, steps, k - 1);
      assert Enabled(states[k - 1], steps[k - 1]);
      StepLeased(fix, states[k - 1], steps[k - 1], client, lease);
    }
  }

  /** A client whose keep-alive arrives at `i` and resumes at `k`, before the lease found at `i` is over, is not reaped
      in between; and its new lease is longer than the old one by 12 s less the margin. */
  lemma InTimeIsNeverReaped(
    fix: LockRepairs, states: seq<State>, steps: seq<Step>, i: nat, j: nat, k: nat, id: int, client: string)
    requires FullRun(fix, states, steps) && i < j <= k < |steps|
    requires client in states[i].server.leases && steps[i] == Arrive(id, client)
    requires steps[k] == Resume(Waiting(id, client, states[i].server.leases[client] - MARGIN))
    requires states[k].now < states[i].server.leases[client]
    ensures client in states[j].server.leases && states[j].now < states[j].server.leases[client]
    ensures client in states[k + 1].server.leases
    ensures states[k + 1].server.leases[client] >= states[i].server.leases[client] + 12_000_000_000 - 100_000_000
  {
    var lease := states[i].server.leases[client];
    StaysLeased(fix, states, steps, i, j, client, lease);
    StaysLeased(fix, states, steps, i, k, client, lease);
    ClockOn(fix, states, steps, j, k);
    assert Enabled(states[k], steps[k]) && states[k + 1] == Apply(fix, states[k], steps[k]);
  }
}
