/** The database of a replica: it is the replay of what Learn brought, and the order across paths does not matter. */
module Replicas {
  import opened PaxosTypes
  import opened Handlers
  import opened Cluster
  import opened Decisions
  import opened Extension
  import opened Progress
  import opened Basics
  import opened Repaired

  /** `path#mode` parses back exactly for the paths without '#'. */
  lemma ParsesBack(path: string, mode: string)
    ensures GetKeyValue(path + "#" + mode) == Some((path, mode)) <==> '#' !in path
  {
    var kv := path + "#" + mode;
    var k := FirstHash(kv);
    assert kv[|path|] == '#';
    if '#' in path {
      var i :| 0 <= i < |path| && path[i] == '#';
      assert kv[i] == '#';
      assert k < |path|;
      assert |kv[..k]| != |path|;
    } else {
      assert forall i :: 0 <= i < |path| ==> kv[i] == path[i] != '#';
      assert kv[..|path|] == path && kv[|path| + 1..] == mode;
    }
  }

  type Entry = (int, string)

  function Replay(log: seq<Entry>): map<string, string> {
    if log == [] then map[] else ApplyToDb(Replay(log[..|log| - 1]), log[|log| - 1].1)
  }

  predicate Writes(e: Entry, key: string) {
    GetKeyValue(e.1).Some? && GetKeyValue(e.1).value.0 == key
  }

  /** The last entry that writes `key`, or -1. */
  function LastWrite(log: seq<Entry>, key: string): (i: int)
    ensures -1 <= i < |log|
    ensures i >= 0 ==> Writes(log[i], key)
    ensures forall j :: i < j < |log| ==> !Writes(log[j], key)
  {
    if log == [] then -1
    else if Writes(log[|log| - 1], key) then |log| - 1
    else LastWrite(log[..|log| - 1], key)
  }

  lemma {:induction false} ReplayIsLastWrite(log: seq<Entry>, key: string)
    ensures var i := LastWrite(log, key);
      && (key in Replay(log) <==> i >= 0)
      && (i >= 0 ==> Replay(log)[key] == GetKeyValue(log[i].1).value.1)
  {
    if log == [] {
    } else {
      ReplayIsLastWrite(log[..|log| - 1], key);
    }
  }

  ghost predicate DistinctSlots(log: seq<Entry>) {
    forall i, j :: 0 <= i < j < |log| ==> log[i].0 != log[j].0
  }

  ghost predicate SameEntries(a: seq<Entry>, b: seq<Entry>) {
    forall e :: e in a <==> e in b
  }

  ghost predicate Before(log: seq<Entry>, x: Entry, y: Entry) {
    exists i, j :: 0 <= i < j < |log| && log[i] == x && log[j] == y
  }

  /** Entries for the same path come in the same order in both logs. */
  ghost predicate SamePathOrder(a: seq<Entry>, b: seq<Entry>) {
    forall x, y, key :: Before(a, x, y) && Writes(x, key) && Writes(y, key) ==> Before(b, x, y)
  }

  lemma NothingAfterLast(log: seq<Entry>, key: string, x: Entry)
    requires DistinctSlots(log) && LastWrite(log, key) >= 0 && Writes(x, key)
    ensures !Before(log, log[LastWrite(log, key)], x)
  {
    var last := LastWrite(log, key);
    forall i, j | 0 <= i < j < |log| && log[i] == log[last]
      ensures log[j] != x
    {
      assert i == last;
    }
  }

  lemma SameLastWrite(a: seq<Entry>, b: seq<Entry>, key: string)
    requires SameEntries(a, b) && SamePathOrder(a, b) && DistinctSlots(b) && LastWrite(a, key) >= 0
    ensures LastWrite(b, key) >= 0 && b[LastWrite(b, key)] == a[LastWrite(a, key)]
  {
    var i := LastWrite(a, key);
    var x := a[i];
    assert x in b;
    var y := b[LastWrite(b, key)];
    assert y in a;
    var j :| 0 <= j < |a| && a[j] == y;
    NothingAfterLast(b, key, x);
    assert !Before(a, y, x);
  }

  lemma WrittenInBoth(a: seq<Entry>, b: seq<Entry>, key: string)
    requires SameEntries(a, b)
    ensures LastWrite(b, key) >= 0 ==> LastWrite(a, key) >= 0
  {
    if LastWrite(b, key) >= 0 {
      assert b[LastWrite(b, key)] in a;
    }
  }

  lemma KeyAgrees(a: seq<Entry>, b: seq<Entry>, key: string)
    requires SameEntries(a, b) && SamePathOrder(a, b) && DistinctSlots(b)
    ensures key in Replay(a) <==> key in Replay(b)
    ensures key in Replay(a) ==> Replay(a)[key] == Replay(b)[key]
  {
    ReplayIsLastWrite(a, key);
    ReplayIsLastWrite(b, key);
    if LastWrite(a, key) >= 0 {
      SameLastWrite(a, b, key);
    }
    WrittenInBoth(a, b, key);
  }

  /** Whatever the order across paths. */
  lemma ReplayIgnoresOtherPaths(a: seq<Entry>, b: seq<Entry>)
    requires SameEntries(a, b) && SamePathOrder(a, b) && DistinctSlots(b)
    ensures Replay(a) == Replay(b)
  {
    hide Replay, SameEntries, SamePathOrder, DistinctSlots;
    if Replay(a) != Replay(b) {
      var key := SomeDifference(Replay(a), Replay(b));
      KeyAgrees(a, b, key);
    }
  }

  // ---- Over runs of the cell ----

  /** The entry that a step brings to server `j`: that of a Learn call that finds its slot undecided. */
  function Brought(s: State, t: Step, j: nat): seq<Entry> {
    if && t.DeliverLearn? && t.i == j && j < |s.servers|
       && t.q >= s.servers[j].lowestSlot && t.q !in s.servers[j].Decided()
    then [(t.q, t.v)] else []
  }

  /** What Learn brought to server `j` in the first `k` steps, in order of arrival. */
  function Applied(states: seq<State>, steps: seq<Step>, k: nat, j: nat): seq<Entry>
    requires k < |states| == |steps| + 1
  {
    if k == 0 then [] else Applied(states, steps, k - 1, j) + Brought(states[k - 1], steps[k - 1], j)
  }

  lemma OnlyLearnWrites(c: Cell, s: State, t: Step, j: nat)
    requires |s.servers| == c.n && Enabled(c, s, t) && j < c.n && !(t.DeliverLearn? && t.i == j)
    ensures Apply(c, s, t).servers[j].db == s.servers[j].db
  {
    if t.i == j {
      match t {
        case Begin(i, q, v, view) => CallersWriteNothing(c, s.servers[i], q, v, view);
        case FinishPrepare(i, q) => FinishersWriteNothing(c, s.servers[i], q, s.proposers[(i, q)]);
        case FinishAccept(i, q) => FinishersWriteNothing(c, s.servers[i], q, s.proposers[(i, q)]);
        case Detect(i, x) => ElectionsWriteNothing(s.servers[i], i, x, 0);
        case DeliverElect(i, view) => ElectionsWriteNothing(s.servers[i], i, 0, view);
        case FinishElection(i, x) => EndWritesNothing(s.servers[i], i, x, s.elections[(i, x)]);
        case DeliverPrepare(i, q, prop, view) => AcceptorsWriteNothing(c, s.servers[i], i, q, prop, view, "");
        case DeliverAccept(i, q, view, v) => AcceptorsWriteNothing(c, s.servers[i], i, q, 0, view, v);
        case DeliverHeartbeat(i, view, done, decided) => CopiesWriteNothing(c, s.servers[i], view, done, decided);
        case _ => HandlersWriteNothing(c, s, t);
      }
    }
  }

  lemma CallersWriteNothing(c: Cell, r: Server, q: int, v: string, view: nat)
    requires q in r.slots
    ensures BeginEffect(c, r, q, v, view).server.db == r.db
  {
  }

  lemma FinishersWriteNothing(c: Cell, r: Server, q: int, p: Proposer)
    ensures q in r.slots && p.phase.Preparing? ==> FinishPrepareEffect(c, r, q, p).server.db == r.db
    ensures p.phase.Accepting? ==> FinishAcceptEffect(c, r, q, p).server.db == r.db
  {
  }

  lemma ElectionsWriteNothing(r: Server, i: nat, x: nat, view: nat)
    ensures r.me < r.numServers ==> DetectEffect(r, x).server.db == r.db
    ensures DeliverElectEffect(r, i, view).server.db == r.db
  {
  }

  lemma EndWritesNothing(r: Server, i: nat, x: nat, el: Election)
    ensures FinishElectionEffect(r, i, x, el).server.db == r.db
  {
  }

  lemma AcceptorsWriteNothing(c: Cell, r: Server, i: nat, q: int, prop: int, view: nat, v: string)
    ensures DeliverPrepareEffect(c, r, i, q, prop, view).server.db == r.db
    ensures DeliverAcceptEffect(r, i, q, view, v).server.db == r.db
  {
  }

  lemma CopiesWriteNothing(c: Cell, r: Server, view: nat, done: seq<int>, decided: map<int, string>)
    ensures DeliverHeartbeatEffect(c, r, view, done, decided).server.db == r.db
  {
  }

  lemma HandlersWriteNothing(c: Cell, s: State, t: Step)
    requires Enabled(c, s, t) && !t.DeliverLearn?
    requires !(t.Begin? || t.FinishPrepare? || t.FinishAccept? || t.Detect? || t.DeliverElect? || t.FinishElection?
               || t.DeliverPrepare? || t.DeliverAccept? || t.DeliverHeartbeat?)
    ensures EffectOf(c, s, t).server.db == s.servers[t.i].db
  {
  }

  lemma LearnWrites(r: Server, q: int, v: string)
    requires q >= r.lowestSlot
    ensures Learn(r, q, v).db == if q in r.Decided() then r.db else ApplyToDb(r.db, v)
    ensures q in Learn(r, q, v).Decided()
    ensures q !in r.Decided() ==> Learn(r, q, v).Decided()[q] == v
  {
  }

  /** The database is the replay of `log`, which has no slot twice and only slots that are decided so. */
  ghost predicate IsReplay(r: Server, log: seq<Entry>) {
    && r.db == Replay(log) && DistinctSlots(log)
    && forall e :: e in log ==> e.0 in r.Decided() && r.Decided()[e.0] == e.1
  }

  /** The database of server `j` is the replay of what Learn brought it, and no slot is applied twice. */
  lemma {:induction false} DbIsReplay(c: Cell, states: seq<State>, steps: seq<Step>, k: nat, j: nat)
    requires Run(c, states, steps) && k < |states| && j < c.n
    ensures |states[k].servers| == c.n
    ensures IsReplay(states[k].servers[j], Applied(states, steps, k, j))
  {
    hide Enabled, Apply, ServerForward, Init, IsReplay, Brought;
    if k == 0 {
      NothingToReplay(c, j);
    } else {
      DbIsReplay(c, states, steps, k - 1, j);
      StepForward(c, states, steps, k - 1, j);
      ReplayStep(c, states[k - 1], steps[k - 1], j, Applied(states, steps, k - 1, j), Applied(states, steps, k, j));
    }
  }

  lemma NothingToReplay(c: Cell, j: nat)
    requires j < c.n
    ensures |Init(c).servers| == c.n && IsReplay(Init(c).servers[j], [])
  {
  }

  lemma StepForward(c: Cell, states: seq<State>, steps: seq<Step>, k: nat, j: nat)
    requires Run(c, states, steps) && k < |steps| && j < c.n
    ensures Enabled(c, states[k], steps[k]) && states[k + 1] == Apply(c, states[k], steps[k])
    ensures |states[k].servers| == |states[k + 1].servers| == c.n
    ensures ServerForward(states[k].servers[j], states[k + 1].servers[j])
  {
    OnlyForward(c, states, steps, k, k + 1);
    hide Enabled, Apply, ServerForward;
    assert Enabled(c, states[k], steps[k]);
  }

  lemma ReplayStep(c: Cell, s: State, t: Step, j: nat, before: seq<Entry>, after: seq<Entry>)
    requires |s.servers| == c.n && Enabled(c, s, t) && j < c.n
    requires ServerForward(s.servers[j], Apply(c, s, t).servers[j])
    requires IsReplay(s.servers[j], before) && after == before + Brought(s, t, j)
    ensures IsReplay(Apply(c, s, t).servers[j], after)
  {
    DecisionsStay(s.servers[j], Apply(c, s, t).servers[j]);
    if t.DeliverLearn? && t.i == j {
      assert Apply(c, s, t).servers[j] == Learn(s.servers[j], t.q, t.v);
      hide Apply, Enabled;
      AppliedOnce(s.servers[j], t.q, t.v, before, after);
    } else {
      OnlyLearnWrites(c, s, t, j);
      hide Apply, Enabled;
      assert after == before;
    }
  }

  lemma DecisionsStay(a: Server, b: Server)
    requires ServerForward(a, b)
    ensures forall q :: q in a.Decided() ==> q in b.Decided() && b.Decided()[q] == a.Decided()[q]
  {
  }

  lemma AppliedOnce(r: Server, q: int, v: string, before: seq<Entry>, after: seq<Entry>)
    requires IsReplay(r, before)
    requires after == if q >= r.lowestSlot && q !in r.Decided() then before + [(q, v)] else before
    requires forall k :: k in r.Decided() ==> k in Learn(r, q, v).Decided() && Learn(r, q, v).Decided()[k] == r.Decided()[k]
    ensures IsReplay(Learn(r, q, v), after)
  {
    if q >= r.lowestSlot {
      LearnWrites(r, q, v);
    }
    if after != before {
      assert after[..|after| - 1] == before;
    }
  }

  /** Replicas to which Learn brought the same entries, those of each path in the same order, have equal databases. */
  lemma ReplicasAgree(c: Cell, states: seq<State>, steps: seq<Step>, k: nat, i: nat, j: nat)
    requires Run(c, states, steps) && k < |states| && i < c.n && j < c.n
    requires SameEntries(Applied(states, steps, k, i), Applied(states, steps, k, j))
    requires SamePathOrder(Applied(states, steps, k, i), Applied(states, steps, k, j))
    ensures |states[k].servers| == c.n && states[k].servers[i].db == states[k].servers[j].db
  {
    DbIsReplay(c, states, steps, k, i);
    DbIsReplay(c, states, steps, k, j);
    ReplayIgnoresOtherPaths(Applied(states, steps, k, i), Applied(states, steps, k, j));
  }

  function SlotsOf(log: seq<Entry>): set<int> {
    set e | e in log :: e.0
  }

  /** With the repairs it is enough that the same slots were learned: their values agree. */
  lemma RepairedReplicasAgree(c: Cell, states: seq<State>, steps: seq<Step>, k: nat, i: nat, j: nat)
    requires c.n >= 2 && c.fix.All() && c.oneElection && Run(c, states, steps) && k < |states| && i < c.n && j < c.n
    requires SlotsOf(Applied(states, steps, k, i)) == SlotsOf(Applied(states, steps, k, j))
    requires SamePathOrder(Applied(states, steps, k, i), Applied(states, steps, k, j))
    ensures |states[k].servers| == c.n && states[k].servers[i].db == states[k].servers[j].db
  {
    SlotsGiveEntries(c, states, steps, k, i, j);
    SlotsGiveEntries(c, states, steps, k, j, i);
    ReplicasAgree(c, states, steps, k, i, j);
  }

  lemma SlotsGiveEntries(c: Cell, states: seq<State>, steps: seq<Step>, k: nat, i: nat, j: nat)
    requires c.n >= 2 && c.fix.All() && c.oneElection && Run(c, states, steps) && k < |states| && i < c.n && j < c.n
    requires SlotsOf(Applied(states, steps, k, i)) <= SlotsOf(Applied(states, steps, k, j))
    ensures forall e :: e in Applied(states, steps, k, i) ==> e in Applied(states, steps, k, j)
  {
    DbIsReplay(c, states, steps, k, i);
    DbIsReplay(c, states, steps, k, j);
    RepairedAgreement(c, states, steps, k);
    forall e | e in Applied(states, steps, k, i)
      ensures e in Applied(states, steps, k, j)
    {
      assert e.0 in SlotsOf(Applied(states, steps, k, j));
      var e' :| e' in Applied(states, steps, k, j) && e'.0 == e.0;
      assert DecideBoth(states[k], i, j, e.0);
    }
  }
}
