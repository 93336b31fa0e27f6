/** The client's lease: normal operation, the grace period once its lease ran out, and the calls it refuses meanwhile.
    Times are whole seconds. The class in ClientLib.dfy is proved to compute these functions. */
module ClientSession {

  const LEASE_SECONDS := 12
  const GRACE_PERIOD := 45

  /** The fields of `ClientLib`. */
  datatype Client = Client(clientId: int, currentLeader: string, leaseTimeout: int, latestEpoch: int, acceptRequests: bool)

  const NEW_CLIENT := Client(0, "127.0.0.1:50051", 0, 0, true)

  /** Where `send_keep_alive` is; `current` is its last reading of the clock. */
  datatype Position =
    | Idle(code: int)
    | NormalTest(current: int)
    | NormalCall(current: int)
    | GraceTest(current: int)
    | GraceCall(current: int, server: string)
  {
    predicate Failed() {
      Idle? && code != 0
    }

    predicate InGrace() {
      GraceTest? || GraceCall?
    }
  }

  datatype Outcome = Unreachable | Reply(success: bool, epoch: int, lease: int)

  /** The head of either loop, up to the call. `now` is read when the first loop is left; `server` is the one the second
      loop picks. */
  function Test(c: Client, at: Position, now: int, server: string): (Client, Position) {
    match at
    case NormalTest(current) =>
      (c, if current < c.leaseTimeout then NormalCall(current) else GraceTest(now))
    case GraceTest(current) =>
      if current < c.leaseTimeout + GRACE_PERIOD then
        (c.(acceptRequests := false), if server == "" then Idle(-2) else GraceCall(current, server))
      else (c, Idle(-1))
    case _ => (c, at)
  }

  /** The rest of the loop body. A newer epoch is noted and asked again without reading the clock. */
  function Answered(c: Client, at: Position, outcome: Outcome, now: int): (Client, Position) {
    var good := outcome.Reply? && outcome.success;
    var newer := good && outcome.epoch > c.latestEpoch;
    match at
    case NormalCall(current) =>
      if newer then (c.(latestEpoch := outcome.epoch), NormalTest(current))
      else if good then (c.(leaseTimeout := outcome.lease, acceptRequests := true), Idle(0))
      else (c, NormalTest(now))
    case GraceCall(current, server) =>
      if newer then (c.(latestEpoch := outcome.epoch), GraceTest(current))
      else if good then
        (c.(leaseTimeout := outcome.lease, currentLeader := server, acceptRequests := true), Idle(0))
      else (c, GraceTest(now))
    case _ => (c, at)
  }

  /** `chubby_open`, up to its `send_keep_alive`. */
  function Open(c: Client, id: int, now: int): Client {
    c.(clientId := id, leaseTimeout := now + LEASE_SECONDS)
  }

  /** `chubby_init`, once it has its channels. */
  function Init(c: Client, now: int): Client {
    c.(leaseTimeout := now * 2)
  }

  datatype LockAnswer = Delivered(success: bool, leader: string) | Aborted | DeadlineExceeded | OtherError

  /** Whether `chubby_lock` and `chubby_unlock` send their RPC. */
  predicate Sends(c: Client, now: int) {
    c.acceptRequests && now < c.leaseTimeout
  }

  function Lock(c: Client, now: int, answer: LockAnswer): (Client, int) {
    if !c.acceptRequests then (c, -4)
    else if now >= c.leaseTimeout then (c, -3)
    else
      match answer
      case Delivered(success, leader) => (c.(currentLeader := leader), if success then 0 else -1)
      case Aborted => (c, -5)
      case _ => (c, -2)
  }

  /** Here an error other than the two named ones falls through to the success code. */
  function Unlock(c: Client, now: int, answer: LockAnswer): (Client, int) {
    if !c.acceptRequests then (c, -4)
    else if now >= c.leaseTimeout then (c, -3)
    else
      match answer
      case Delivered(success, leader) => (c.(currentLeader := leader), if success then 0 else -1)
      case Aborted => (c, -5)
      case DeadlineExceeded => (c, -2)
      case OtherError => (c, 0)
  }

  // ---- Runs: one keep-alive at a time, with lock calls at any point ----

  datatype State = State(now: int, client: Client, at: Position)

  datatype Step =
    | Pass(seconds: nat)
    | CallInit
    | CallOpen(id: int)
    | CallKeepAlive
    | DoTest(server: string)
    | DoAnswer(outcome: Outcome)
    | CallLock(answer: LockAnswer)
    | CallUnlock(answer: LockAnswer)

  predicate Enabled(s: State, t: Step) {
    match t
    case CallInit => s.at.Idle?
    case CallOpen(_) => s.at.Idle?
    case CallKeepAlive => s.at.Idle?
    case DoTest(_) => s.at.NormalTest? || s.at.GraceTest?
    case DoAnswer(_) => s.at.NormalCall? || s.at.GraceCall?
    case _ => true
  }

  function Apply(s: State, t: Step): State {
    match t
    case Pass(seconds) => s.(now := s.now + seconds)
    case CallInit => s.(client := Init(s.client, s.now))
    case CallOpen(id) => s.(client := Open(s.client, id, s.now), at := NormalTest(s.now))
    case CallKeepAlive => s.(at := NormalTest(s.now))
    case DoTest(server) => var (c, at) := Test(s.client, s.at, s.now, server); State(s.now, c, at)
    case DoAnswer(outcome) => var (c, at) := Answered(s.client, s.at, outcome, s.now); State(s.now, c, at)
    case CallLock(answer) => s.(client := Lock(s.client, s.now, answer).0)
    case CallUnlock(answer) => s.(client := Unlock(s.client, s.now, answer).0)
  }

  ghost predicate Run(states: seq<State>, steps: seq<Step>) {
    && |states| == |steps| + 1
    && forall k :: 0 <= k < |steps| ==> Enabled(states[k], steps[k]) && states[k + 1] == Apply(states[k], steps[k])
  }

  /** A run of a client object from its creation on. */
  ghost predicate FullRun(states: seq<State>, steps: seq<Step>) {
    Run(states, steps) && states[0].client == NEW_CLIENT && states[0].at == Idle(0)
  }

  predicate SendsRpc(s: State, t: Step) {
    (t.CallLock? || t.CallUnlock?) && Sends(s.client, s.now)
  }

  /** The step lets the client grant itself a lease. */
  predicate SelfGrants(t: Step) {
    t.CallOpen? || t.CallInit?
  }

  /** The step ends a keep-alive with success. */
  predicate Succeeds(s: State, t: Step) {
    t.DoAnswer? && Apply(s, t).at == Idle(0)
  }

  // ---- What every run keeps ----

  predicate Expired(s: State) {
    s.client.leaseTimeout <= s.now
  }

  ghost predicate Inv(s: State) {
    && (s.at.NormalTest? || s.at.NormalCall? || s.at.InGrace() ==> s.at.current <= s.now)
    && (s.at.InGrace() ==> Expired(s))
    && (s.at.GraceCall? ==> !s.client.acceptRequests)
    && (s.at == Idle(-2) ==> !s.client.acceptRequests)
    && (s.at.Idle? ==> s.at.code in {0, -1, -2})
  }

  lemma StepKeeps(s: State, t: Step)
    requires Inv(s) && Enabled(s, t)
    ensures Inv(Apply(s, t))
  {
  }

  lemma {:induction false} RunKeeps(states: seq<State>, steps: seq<Step>, k: nat)
    requires Run(states, steps) && Inv(states[0]) && k < |states|
    ensures Inv(states[k])
  {
    if k == 0 {
    } else {
      RunKeeps(states, steps, k - 1);
      assert Enabled(states[k - 1], steps[k - 1]);
      StepKeeps(states[k - 1], steps[k - 1]);
    }
  }

  /** No lock RPC is sent during the grace loop. */
  lemma NoRpcInGrace(states: seq<State>, steps: seq<Step>, k: nat)
    requires FullRun(states, steps) && k < |steps| && states[k].at.InGrace()
    ensures !SendsRpc(states[k], steps[k])
  {
    RunKeeps(states, steps, k);
  }

  /** A lease is adopted only from an answer whose epoch is not newer than the latest, which never decreases. */
  lemma AdoptsOnlyKnownEpochs(s: State, t: Step)
    requires Enabled(s, t)
    ensures s.client.latestEpoch <= Apply(s, t).client.latestEpoch
    ensures Apply(s, t).client.leaseTimeout != s.client.leaseTimeout ==>
              || SelfGrants(t)
              || (t.DoAnswer? && t.outcome.Reply? && t.outcome.success && t.outcome.epoch <= s.client.latestEpoch
                  && Apply(s, t).client.leaseTimeout == t.outcome.lease && Succeeds(s, t))
    ensures Apply(s, t).client.acceptRequests && !s.client.acceptRequests ==> Succeeds(s, t)
  {
  }

  lemma {:induction false} EpochNeverDecreases(states: seq<State>, steps: seq<Step>, i: nat, k: nat)
    requires Run(states, steps) && i <= k < |states|
    ensures states[i].client.latestEpoch <= states[k].client.latestEpoch
    ensures states[i].now <= states[k].now
  {
    if i == k {
    } else {
      EpochNeverDecreases(states, steps, i, k - 1);
      assert Enabled(states[k - 1], steps[k - 1]);
      AdoptsOnlyKnownEpochs(states[k - 1], steps[k - 1]);
    }
  }

  ghost predicate NoSuccess(states: seq<State>, steps: seq<Step>, i: nat, k: nat) {
    k <= |steps| < |states| && forall j :: i <= j < k ==> !Succeeds(states[j], steps[j])
  }

  lemma {:induction false} StaysBarred(states: seq<State>, steps: seq<Step>, i: nat, k: nat)
    requires Run(states, steps) && i <= k && NoSuccess(states, steps, i, k) && !states[i].client.acceptRequests
    ensures !states[k].client.acceptRequests
  {
    if i == k {
    } else {
      StaysBarred(states, steps, i, k - 1);
      assert Enabled(states[k - 1], steps[k - 1]) && !Succeeds(states[k - 1], steps[k - 1]);
      AdoptsOnlyKnownEpochs(states[k - 1], steps[k - 1]);
    }
  }

  lemma {:induction false} StaysExpired(states: seq<State>, steps: seq<Step>, i: nat, k: nat)
    requires Run(states, steps) && i <= k && NoSuccess(states, steps, i, k) && Expired(states[i])
    requires forall j :: i <= j < k ==> !SelfGrants(steps[j])
    ensures Expired(states[k])
  {
    if i == k {
    } else {
      StaysExpired(states, steps, i, k - 1);
      assert Enabled(states[k - 1], steps[k - 1]) && !Succeeds(states[k - 1], steps[k - 1]);
      AdoptsOnlyKnownEpochs(states[k - 1], steps[k - 1]);
    }
  }

  /** After a keep-alive returned -1 or -2 no lock RPC is sent until a later one succeeds, unless `chubby_open` or
      `chubby_init` is called again. */
  lemma NoRpcAfterFailure(states: seq<State>, steps: seq<Step>, i: nat, k: nat)
    requires FullRun(states, steps) && i < k < |steps| && NoSuccess(states, steps, i + 1, k)
    requires !states[i].at.Idle? && states[i + 1].at.Failed()
    requires forall j :: i < j < k ==> !SelfGrants(steps[j])
    ensures !SendsRpc(states[k], steps[k])
  {
    RunKeeps(states, steps, i);
    assert Enabled(states[i], steps[i]);
    StaysExpired(states, steps, i + 1, k);
  }

  ghost predicate NoRpcUntilSuccess(s: State) {
    forall states, steps, k: nat | Run(states, steps) && states[0] == s && k < |steps| && NoSuccess(states, steps, 0, k) ::
      !SendsRpc(states[k], steps[k])
  }

  /** Whatever is called: exactly when the flag is down. With the flag up, a `chubby_open` grants itself a lease that no
      server knows of. (When a keep-alive fails with the flag up is said in ClientLib.dfy.) */
  lemma NoRpcUntilSuccessExactlyWhenBarred(s: State)
    requires s.at.Failed()
    ensures NoRpcUntilSuccess(s) <==> !s.client.acceptRequests
  {
    if !s.client.acceptRequests {
      forall states, steps, k: nat |
        Run(states, steps) && states[0] == s && k < |steps| && NoSuccess(states, steps, 0, k)
        ensures !SendsRpc(states[k], steps[k])
      {
        StaysBarred(states, steps, 0, k);
      }
    } else {
      var s1 := Apply(s, CallOpen(0));
      var s2 := Apply(s1, CallLock(Aborted));
      var states, steps := [s, s1, s2], [CallOpen(0), CallLock(Aborted)];
      assert Run(states, steps) && NoSuccess(states, steps, 0, 1);
      assert SendsRpc(states[1], steps[1]);
    }
  }

  /** The late keep-alive does occur. */
  lemma LateFailureLeavesFlagUp() returns (states: seq<State>, steps: seq<Step>)
    ensures FullRun(states, steps)
    ensures states[|states| - 1].at == Idle(-1) && states[|states| - 1].client.acceptRequests
  {
    var s0 := State(100, NEW_CLIENT, Idle(0));
    steps := [CallOpen(0), DoTest(""), Pass(60), DoAnswer(Unreachable), DoTest(""), DoTest("")];
    var s1 := Apply(s0, steps[0]);
    var s2 := Apply(s1, steps[1]);
    var s3 := Apply(s2, steps[2]);
    var s4 := Apply(s3, steps[3]);
    var s5 := Apply(s4, steps[4]);
    var s6 := Apply(s5, steps[5]);
    states := [s0, s1, s2, s3, s4, s5, s6];
  }
}
