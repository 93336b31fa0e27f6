/** The client object, with `send_keep_alive`'s two loops. What each call brings, and when, is a parameter. */
module ClientLibrary {
  import opened PaxosTypes
  import opened ClientSession

  /** One turn of a loop: the server the grace loop picks, what its call brings, and the clock read afterwards. */
  datatype Turn = Turn(server: string, outcome: Outcome, now: int)

  function OneTurn(c: Client, at: Position, turn: Turn): (Client, Position) {
    var (c1, at1) := Test(c, at, turn.now, turn.server);
    if at1.NormalCall? || at1.GraceCall? then Answered(c1, at1, turn.outcome, turn.now) else (c1, at1)
  }

  /** A turn is the test of the loop, and then, if that makes a call, what this turn's call brings. */
  lemma TurnIsTestAndAnswer(c: Client, at: Position, turn: Turn)
    requires at.NormalTest? || at.GraceTest?
    ensures var tested := Apply(State(turn.now, c, at), DoTest(turn.server));
      var s := if tested.at.NormalCall? || tested.at.GraceCall? then Apply(tested, DoAnswer(turn.outcome)) else tested;
      OneTurn(c, at, turn) == (s.client, s.at)
  {
  }

  type Network = nat -> Turn

  /** The client and its position after `n` turns. */
  function After(c: Client, at: Position, net: Network, n: nat): (Client, Position) {
    if n == 0 then (c, at)
    else
      var (c1, at1) := After(c, at, net, n - 1);
      OneTurn(c1, at1, net(n - 1))
  }

  function Reading(t0: int, net: Network, k: nat): int {
    if k == 0 then t0 else net(k - 1).now
  }

  /** The clock does not go back in turn `k`. */
  ghost predicate InOrder(t0: int, net: Network, k: nat) {
    Reading(t0, net, k) <= net(k).now
  }

  ghost predicate Monotone(t0: int, net: Network) {
    forall k: nat :: InOrder(t0, net, k)
  }

  predicate Good(outcome: Outcome) {
    outcome.Reply? && outcome.success
  }

  /** In turn `k` a good answer's epoch is within the bound, and any other call takes time. */
  ghost predicate FairTurn(t0: int, net: Network, bound: int, k: nat) {
    var turn := net(k);
    && Reading(t0, net, k) <= turn.now
    && if Good(turn.outcome) then turn.outcome.epoch <= bound else Reading(t0, net, k) < turn.now
  }

  /** Epochs are bounded, and a call that fails takes time. */
  ghost predicate Fair(t0: int, net: Network, bound: int) {
    forall k: nat :: FairTurn(t0, net, bound, k)
  }

  lemma OneMoreTurn(c: Client, at: Position, t0: int, net: Network, bound: int, n: nat)
    requires Fair(t0, net, bound)
    ensures var (c1, at1) := After(c, at, net, n);
      After(c, at, net, n + 1) == OneTurn(c1, at1, net(n))
    ensures Reading(t0, net, n) <= net(n).now == Reading(t0, net, n + 1)
    ensures if Good(net(n).outcome) then net(n).outcome.epoch <= bound else Reading(t0, net, n) < net(n).now
  {
    assert FairTurn(t0, net, bound, n);
  }

  /** What is left of the epochs, and of the lease with its grace period; one turn more to change loops. */
  function Left(c: Client, at: Position, bound: int): int {
    match at
    case Idle(_) => 0
    case NormalTest(current) => bound - c.latestEpoch + TimeLeft(c, current) + 2
    case _ => bound - c.latestEpoch + TimeLeft(c, at.current) + 1
  }

  function TimeLeft(c: Client, current: int): int {
    if current < c.leaseTimeout + GRACE_PERIOD then c.leaseTimeout + GRACE_PERIOD - current else 0
  }

  /** Between two turns of a keep-alive that started with epochs up to `bound` and has not ended. */
  ghost predicate Going(c: Client, at: Position, bound: int, last: int) {
    c.latestEpoch <= bound && (at.NormalTest? || at.GraceTest?) && at.current <= last
  }

  lemma TurnProgresses(c: Client, at: Position, turn: Turn, bound: int, last: int)
    requires Going(c, at, bound, last) && last <= turn.now
    requires if Good(turn.outcome) then turn.outcome.epoch <= bound else last < turn.now
    ensures var (c', at') := OneTurn(c, at, turn);
      c'.latestEpoch <= bound && (at'.Idle? || (Going(c', at', bound, turn.now) && Left(c', at', bound) < Left(c, at, bound)))
  {
  }

  /** A keep-alive ends after at most `Left` turns: the epochs and the seconds that are left bound it. */
  lemma {:induction false} KeepAliveEnds(c: Client, t0: int, net: Network, bound: int, n: nat)
    requires c.latestEpoch <= bound && Fair(t0, net, bound)
    ensures var (c', at) := After(c, NormalTest(t0), net, n);
      && c'.latestEpoch <= bound
      && (at.Idle? || (Going(c', at, bound, Reading(t0, net, n))
                       && 0 < Left(c', at, bound) <= Left(c, NormalTest(t0), bound) - n))
    ensures n >= Left(c, NormalTest(t0), bound) ==> After(c, NormalTest(t0), net, n).1.Idle?
  {
    if n == 0 {
    } else {
      KeepAliveEnds(c, t0, net, bound, n - 1);
      assert FairTurn(t0, net, bound, n - 1);
      var (c1, at1) := After(c, NormalTest(t0), net, n - 1);
      hide OneTurn;
      if at1.Idle? {
        IdleStays(c1, at1, net(n - 1));
      } else {
        TurnProgresses(c1, at1, net(n - 1), bound, Reading(t0, net, n - 1));
      }
    }
  }

  lemma IdleStays(c: Client, at: Position, turn: Turn)
    requires at.Idle?
    ensures OneTurn(c, at, turn) == (c, at)
  {
  }

  // ---- A keep-alive that fails with the flag up ----

  /** The first reading of the clock after the first loop, if `n` turns got that far. */
  function LeftAt(c: Client, t0: int, net: Network, n: nat): Option<int> {
    if n == 0 then None
    else if LeftAt(c, t0, net, n - 1).Some? then LeftAt(c, t0, net, n - 1)
    else if After(c, NormalTest(t0), net, n - 1).1.NormalTest? && After(c, NormalTest(t0), net, n).1.GraceTest? then
      Some(net(n - 1).now)
    else None
  }

  /** Until the grace loop runs the flag is as it was, and once it runs the flag is down until a success. */
  ghost predicate FlagOk(c: Client, left: Option<int>, c': Client, at: Position) {
    match at
    case NormalTest(_) => left.None? && c'.acceptRequests == c.acceptRequests && c'.leaseTimeout == c.leaseTimeout
    case GraceTest(current) =>
      && left.Some? && c'.leaseTimeout == c.leaseTimeout
      && if left.value >= c.leaseTimeout + GRACE_PERIOD then
           current == left.value && c'.acceptRequests == c.acceptRequests
         else current == left.value || !c'.acceptRequests
    case Idle(code) =>
      code != 0 ==>
        left.Some? && (c'.acceptRequests <==> c.acceptRequests && left.value >= c.leaseTimeout + GRACE_PERIOD)
    case _ => false
  }

  lemma {:induction false} FlagAfter(c: Client, t0: int, net: Network, n: nat)
    ensures var (c', at) := After(c, NormalTest(t0), net, n); FlagOk(c, LeftAt(c, t0, net, n), c', at)
  {
    if n == 0 {
    } else {
      FlagAfter(c, t0, net, n - 1);
    }
  }

  /** A keep-alive fails with the flag up exactly when the flag was up before and the first reading after the first loop
      was too late for the grace period, so that the grace loop never ran. */
  lemma FailsWithFlagUpExactlyWhenLate(c: Client, t0: int, net: Network, n: nat)
    requires After(c, NormalTest(t0), net, n).1.Failed()
    ensures After(c, NormalTest(t0), net, n).0.acceptRequests <==>
            && c.acceptRequests
            && LeftAt(c, t0, net, n).Some? && LeftAt(c, t0, net, n).value >= c.leaseTimeout + GRACE_PERIOD
  {
    FlagAfter(c, t0, net, n);
  }

  // ---- The turns are steps of the runs of ClientSession.dfy ----

  ghost predicate Leads(a: State, b: State) {
    exists states, steps :: Run(states, steps) && states[0] == a && states[|states| - 1] == b
  }

  lemma LeadsOn(a: State, b: State, t: Step)
    requires Leads(a, b) && Enabled(b, t)
    ensures Leads(a, Apply(b, t))
  {
    var states, steps :| Run(states, steps) && states[0] == a && states[|states| - 1] == b;
    var states', steps' := states + [Apply(b, t)], steps + [t];
    hide Enabled, Apply;
    forall k | 0 <= k < |steps'|
      ensures Enabled(states'[k], steps'[k]) && states'[k + 1] == Apply(states'[k], steps'[k])
    {
      if k < |steps| {
        assert steps'[k] == steps[k];
      }
    }
    assert Run(states', steps') && states'[0] == a;
  }

  lemma TurnIsSteps(a: State, b: State, turn: Turn)
    requires Leads(a, b) && b.now <= turn.now && (b.at.NormalTest? || b.at.GraceTest? || b.at.Idle?)
    ensures var (c, at) := OneTurn(b.client, b.at, turn);
      Leads(a, State(turn.now, c, at)) && (at.NormalTest? || at.GraceTest? || at.Idle?)
  {
    hide Leads;
    LeadsOn(a, b, Pass(turn.now - b.now));
    var b1 := b.(now := turn.now);
    if !b.at.Idle? {
      LeadsOn(a, b1, DoTest(turn.server));
      var b2 := Apply(b1, DoTest(turn.server));
      if b2.at.NormalCall? || b2.at.GraceCall? {
        LeadsOn(a, b2, DoAnswer(turn.outcome));
      }
    }
  }

  lemma {:induction false} KeepAliveIsARun(c: Client, t0: int, net: Network, n: nat)
    requires Monotone(t0, net)
    ensures var (c', at) := After(c, NormalTest(t0), net, n);
      && Leads(State(t0, c, NormalTest(t0)), State(Reading(t0, net, n), c', at))
      && (at.NormalTest? || at.GraceTest? || at.Idle?)
  {
    var a := State(t0, c, NormalTest(t0));
    if n == 0 {
      assert Run([a], []);
    } else {
      KeepAliveIsARun(c, t0, net, n - 1);
      var (c1, at1) := After(c, NormalTest(t0), net, n - 1);
      assert InOrder(t0, net, n - 1);
      hide Leads, OneTurn;
      TurnIsSteps(a, State(Reading(t0, net, n - 1), c1, at1), net(n - 1));
    }
  }

  /** What a keep-alive that returned `code` after this last turn leaves. */
  ghost predicate Returned(c: Client, code: int, last: Turn) {
    match code
    case 0 =>
      && last.outcome.Reply? && last.outcome.success && last.outcome.epoch <= c.latestEpoch
      && c.leaseTimeout == last.outcome.lease && c.acceptRequests
    case -2 => last.server == "" && !c.acceptRequests
    case _ => code == -1
  }

  class ClientLib {
    var clientId: int
    var currentLeader: string
    var clientLeaseTimeout: int
    var latestEpochNumber: int
    var acceptRequests: bool

    ghost function Value(): Client
      reads this
    {
      Client(clientId, currentLeader, clientLeaseTimeout, latestEpochNumber, acceptRequests)
    }

    constructor ()
      ensures Value() == NEW_CLIENT
    {
      clientId, currentLeader, clientLeaseTimeout, latestEpochNumber := 0, "127.0.0.1:50051", 0, 0;
      acceptRequests := true;
    }

    /** The keep-alive ends, after `turns` turns, as `After` says. */
    method SendKeepAlive(t0: int, net: Network, ghost bound: int) returns (code: int, turns: nat)
      requires latestEpochNumber <= bound && Fair(t0, net, bound)
      modifies this
      ensures (Value(), Idle(code)) == After(old(Value()), NormalTest(t0), net, turns)
      ensures turns > 0 && !After(old(Value()), NormalTest(t0), net, turns - 1).1.Idle?
      ensures Returned(Value(), code, net(turns - 1))
    {
      ghost var c, start := Value(), NormalTest(t0);
      assert After(c, start, net, 0) == (c, start);
      hide After, Reading, Fair;
      var currentTime := t0;
      turns := 0;
      while currentTime < clientLeaseTimeout
        invariant After(c, start, net, turns) == (Value(), NormalTest(currentTime))
        invariant latestEpochNumber <= bound && currentTime <= Reading(t0, net, turns)
        decreases bound - latestEpochNumber, clientLeaseTimeout - currentTime
      {
        var turn := net(turns);
        OneMoreTurn(c, start, t0, net, bound, turns);
        turns := turns + 1;
        if turn.outcome.Reply? && turn.outcome.success {
          if turn.outcome.epoch > latestEpochNumber {
            latestEpochNumber := turn.outcome.epoch;
            continue;
          }
          clientLeaseTimeout, acceptRequests := turn.outcome.lease, true;
          return 0, turns;
        }
        currentTime := turn.now;
      }
      OneMoreTurn(c, start, t0, net, bound, turns);
      currentTime := net(turns).now;
      code, turns := WaitInGrace(currentTime, turns + 1, t0, net, c, bound);
    }

    /** The second loop of `send_keep_alive`, entered at `currentTime` with `turns` turns behind it. */
    method WaitInGrace(currentTime: int, turns: nat, ghost t0: int, net: Network, ghost c: Client, ghost bound: int)
      returns (code: int, allTurns: nat)
      requires latestEpochNumber <= bound && Fair(t0, net, bound) && currentTime <= Reading(t0, net, turns)
      requires After(c, NormalTest(t0), net, turns) == (Value(), GraceTest(currentTime))
      modifies this
      ensures (Value(), Idle(code)) == After(c, NormalTest(t0), net, allTurns)
      ensures allTurns > 0 && !After(c, NormalTest(t0), net, allTurns - 1).1.Idle?
      ensures Returned(Value(), code, net(allTurns - 1)) && (code == 0 ==> currentLeader == net(allTurns - 1).server)
    {
      ghost var start := NormalTest(t0);
      hide After, Reading, Fair;
      var now := currentTime;
      allTurns := turns;
      while now < clientLeaseTimeout + GRACE_PERIOD
        invariant After(c, start, net, allTurns) == (Value(), GraceTest(now))
        invariant latestEpochNumber <= bound && now <= Reading(t0, net, allTurns)
        decreases bound - latestEpochNumber, clientLeaseTimeout + GRACE_PERIOD - now
      {
        acceptRequests := false;
        var turn := net(allTurns);
        OneMoreTurn(c, start, t0, net, bound, allTurns);
        allTurns := allTurns + 1;
        if turn.server == "" {
          return -2, allTurns;
        }
        if turn.outcome.Reply? && turn.outcome.success {
          if turn.outcome.epoch > latestEpochNumber {
            latestEpochNumber := turn.outcome.epoch;
            continue;
          }
          clientLeaseTimeout, currentLeader, acceptRequests := turn.outcome.lease, turn.server, true;
          return 0, allTurns;
        }
        now := turn.now;
      }
      OneMoreTurn(c, start, t0, net, bound, allTurns);
      return -1, allTurns + 1;
    }

    method ChubbyInit(now: int)
      modifies this`clientLeaseTimeout
      ensures Value() == Init(old(Value()), now)
    {
      clientLeaseTimeout := now * 2;
    }

    /** `id` is the number drawn for the session. */
    method ChubbyOpen(id: int, now: int, net: Network, ghost bound: int) returns (code: int, turns: nat)
      requires latestEpochNumber <= bound && Fair(now, net, bound)
      modifies this
      ensures (Value(), Idle(code)) == After(Open(old(Value()), id, now), NormalTest(now), net, turns)
    {
      clientId, clientLeaseTimeout := id, now + LEASE_SECONDS;
      code, turns := SendKeepAlive(now, net, bound);
    }

    method ChubbyLock(now: int, answer: LockAnswer) returns (code: int, sent: bool)
      modifies this`currentLeader
      ensures (Value(), code) == Lock(old(Value()), now, answer)
      ensures sent <==> Sends(old(Value()), now)
    {
      sent := false;
      if !acceptRequests {
        return -4, sent;
      }
      if now >= clientLeaseTimeout {
        return -3, sent;
      }
      sent := true;
      match answer {
        case Delivered(success, leader) =>
          currentLeader := leader;
          code := if success then 0 else -1;
        case Aborted => code := -5;
        case _ => code := -2;
      }
    }

    method ChubbyUnlock(now: int, answer: LockAnswer) returns (code: int, sent: bool)
      modifies this`currentLeader
      ensures (Value(), code) == Unlock(old(Value()), now, answer)
      ensures sent <==> Sends(old(Value()), now)
    {
      sent := false;
      if !acceptRequests {
        return -4, sent;
      }
      if now >= clientLeaseTimeout {
        return -3, sent;
      }
      sent := true;
      match answer {
        case Delivered(success, leader) =>
          currentLeader := leader;
          code := if success then 0 else -1;
        case Aborted => code := -5;
        case DeadlineExceeded => code := -2;
        case OtherError => code := 0;
      }
    }
  }
}
