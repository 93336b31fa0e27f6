/** What a proposer or a candidate makes of the answers to its RPCs, peer by peer (no answer: the RPC failed). */
module Tallies {
  import opened PaxosTypes
  import opened Handlers
  import opened Quorums

  // ---- Election ----

  datatype ElectTally = ElectTally(majority: nat, rejects: nat, highestView: int, maxHighest: int)

  function CountElect(t: ElectTally, a: Option<ElectReply>): ElectTally {
    match a
    case None => t
    case Some(r) =>
      if r.ok then t.(majority := t.majority + 1, maxHighest := Max(t.maxHighest, r.highestSeq))
      else t.(rejects := t.rejects + 1, highestView := Max(t.highestView, r.view))
  }

  function TallyElect(answers: seq<Option<ElectReply>>): ElectTally {
    if answers == [] then ElectTally(0, 0, -1, -1)
    else CountElect(TallyElect(answers[..|answers| - 1]), answers[|answers| - 1])
  }

  datatype Verdict = Retry | Ended(server: Server, won: bool)

  /** The tail of one round of `Election` for view `target`. */
  function Conclude(s: Server, target: int, t: ElectTally): Verdict {
    if t.rejects > 0 then
      Ended(if target < t.highestView then Adopt(s, t.highestView) else s, false)
    else if t.majority + 1 > s.numServers / 2 then
      if t.highestView <= target && s.view < target then
        Ended(Adopt(s, target).(highestAcceptedSeq := Max(s.highestAcceptedSeq, t.maxHighest)), true)
      else
        Ended(Adopt(s, t.highestView), false)
    else
      Retry
  }

  /** Rounds of an election until one of them ends it. */
  function FirstVerdict(s: Server, target: int, rounds: seq<seq<Option<ElectReply>>>): Verdict {
    if rounds == [] then Retry
    else
      var v := Conclude(s, target, TallyElect(rounds[0]));
      if v.Ended? then v else FirstVerdict(s, target, rounds[1..])
  }

  // ---- Prepare ----

  /** `top`, `va`, `counts` are `highest_na`, `highest_va`, `na_count_map`; `seen` is the highest view reported. */
  datatype PrepareTally = PrepareTally(
    majority: nat, rejects: nat, top: int, seen: int, va: string, counts: map<int, nat>, highestN: int,
    decided: Option<string>, stop: bool)

  function CountOf(counts: map<int, nat>, k: int): nat {
    if k in counts then counts[k] else 0
  }

  function RankOf(fix: Repairs, r: PrepareReply): int {
    if fix.rankByAcceptedView then r.acceptedView else r.nA
  }

  function CountPrepareOk(fix: Repairs, n: pos, t: PrepareTally, r: PrepareReply): PrepareTally {
    var rank := RankOf(fix, r);
    var t1 := t.(majority := t.majority + 1, seen := Max(t.seen, r.nA));
    var t2 := if rank > t.top then
                t1.(top := rank, va := r.vA, counts := t.counts[rank := CountOf(t.counts, rank) + 1])
              else
                t1.(rejects := t.rejects + 1, highestN := Max(t.highestN, r.highestN));
    if r.value != "" then t2.(decided := Some(r.value), stop := true)
    else if CountOf(t2.counts, t2.top) > n / 2 then t2.(decided := Some(t2.va), stop := true)
    else t2.(stop := t2.rejects > n / 2 || t2.majority > n / 2)
  }

  function CountPrepare(fix: Repairs, n: pos, t: PrepareTally, a: Option<PrepareReply>): PrepareTally {
    match a
    case None => t
    case Some(r) =>
      if r.ok then CountPrepareOk(fix, n, t, r)
      else if fix.promiseViews then t.(seen := Max(t.seen, r.nA))
      else t
  }

  function TallyPrepare(fix: Repairs, n: pos, v: string, highestN: int, answers: seq<Option<PrepareReply>>): PrepareTally {
    if answers == [] then PrepareTally(0, 0, -1, -1, v, map[], highestN, None, false)
    else
      var t := TallyPrepare(fix, n, v, highestN, answers[..|answers| - 1]);
      if t.stop then t else CountPrepare(fix, n, t, answers[|answers| - 1])
  }

  lemma TallyNone(fix: Repairs, n: pos, v: string, h: int, a: seq<Option<PrepareReply>>)
    ensures TallyPrepare(fix, n, v, h, a[..0]) == PrepareTally(0, 0, -1, -1, v, map[], h, None, false)
  {
  }

  lemma TallyOneMore(fix: Repairs, n: pos, v: string, h: int, a: seq<Option<PrepareReply>>, k: nat)
    requires k < |a| && !TallyPrepare(fix, n, v, h, a[..k]).stop
    ensures TallyPrepare(fix, n, v, h, a[..k + 1]) == CountPrepare(fix, n, TallyPrepare(fix, n, v, h, a[..k]), a[k])
  {
    assert a[..k + 1][..k] == a[..k];
  }

  // ---- Accept ----

  datatype AcceptTally = AcceptTally(majority: nat, rejects: nat, highestView: int, decided: bool)

  function CountAccept(q: int, t: AcceptTally, a: Option<AcceptReply>): AcceptTally {
    match a
    case None => t
    case Some(r) =>
      var t1 := if r.ok then t.(majority := t.majority + 1)
                else t.(rejects := t.rejects + 1, highestView := Max(t.highestView, r.view));
      t1.(decided := t.decided || r.latestDone >= q || r.value != "")
  }

  function TallyAccept(q: int, answers: seq<Option<AcceptReply>>): AcceptTally {
    if answers == [] then AcceptTally(0, 0, -1, false)
    else CountAccept(q, TallyAccept(q, answers[..|answers| - 1]), answers[|answers| - 1])
  }

  // ---- What the counters mean ----

  function ElectOks(answers: seq<Option<ElectReply>>): set<nat> {
    set k: nat | k < |answers| && answers[k].Some? && answers[k].value.ok
  }

  lemma {:induction false} ElectMeaning(answers: seq<Option<ElectReply>>)
    ensures var t := TallyElect(answers);
      && t.majority == |ElectOks(answers)|
      && (t.rejects == 0 <==> forall k :: 0 <= k < |answers| && answers[k].Some? ==> answers[k].value.ok)
      && (t.highestView == -1 || exists k :: 0 <= k < |answers| && answers[k].Some? && !answers[k].value.ok
                                               && answers[k].value.view == t.highestView)
      && (t.rejects == 0 ==> t.highestView == -1)
      && (forall k :: 0 <= k < |answers| && answers[k].Some? && answers[k].value.ok ==>
                        answers[k].value.highestSeq <= t.maxHighest)
      && (forall k :: 0 <= k < |answers| && answers[k].Some? && !answers[k].value.ok ==>
                        answers[k].value.view <= t.highestView)
  {
    if answers == [] {
    } else {
      var last := |answers| - 1;
      ElectMeaning(answers[..last]);
      var a := answers[last];
      var before := ElectOks(answers[..last]);
      assert ElectOks(answers) == if a.Some? && a.value.ok then before + {last} else before;
      assert forall k :: 0 <= k < last ==> answers[..last][k] == answers[k];
      var t0 := TallyElect(answers[..last]);
      if a.Some? && !a.value.ok {
        assert answers[last].value.view == TallyElect(answers).highestView || TallyElect(answers).highestView == t0.highestView;
      }
    }
  }

  function AcceptOks(answers: seq<Option<AcceptReply>>): set<nat> {
    set k: nat | k < |answers| && answers[k].Some? && answers[k].value.ok
  }

  lemma {:induction false} AcceptMeaning(q: int, answers: seq<Option<AcceptReply>>)
    ensures TallyAccept(q, answers).majority == |AcceptOks(answers)|
  {
    if answers == [] {
    } else {
      var last := |answers| - 1;
      AcceptMeaning(q, answers[..last]);
      var a := answers[last];
      var before := AcceptOks(answers[..last]);
      assert AcceptOks(answers) == if a.Some? && a.value.ok then before + {last} else before;
      assert forall k :: 0 <= k < last ==> answers[..last][k] == answers[k];
    }
  }

  /** The loop over the peers breaks where the tally stops. */
  lemma {:induction false} StoppedStays(fix: Repairs, n: pos, v: string, h: int, a: seq<Option<PrepareReply>>, k: nat)
    requires k <= |a| && TallyPrepare(fix, n, v, h, a[..k]).stop
    ensures TallyPrepare(fix, n, v, h, a) == TallyPrepare(fix, n, v, h, a[..k])
  {
    if k == |a| {
      assert a[..k] == a;
    } else {
      assert a[..|a| - 1][..k] == a[..k];
      StoppedStays(fix, n, v, h, a[..|a| - 1], k);
    }
  }

  ghost predicate WasReported(a: seq<Option<PrepareReply>>, x: string) {
    x != "" && exists k :: 0 <= k < |a| && a[k].Some? && a[k].value.value == x
  }

  lemma StillReported(a: seq<Option<PrepareReply>>, b: seq<Option<PrepareReply>>, x: string)
    requires a <= b && WasReported(a, x)
    ensures WasReported(b, x)
  {
    var k :| 0 <= k < |a| && a[k].Some? && a[k].value.value == x;
    assert b[k] == a[k];
  }

  lemma RanksCountOnce(fix: Repairs, n: pos, t0: PrepareTally, a: Option<PrepareReply>)
    requires n >= 2 && forall r :: r in t0.counts ==> t0.counts[r] == 1 && r <= t0.top
    ensures var t := CountPrepare(fix, n, t0, a);
      && (forall r :: r in t.counts ==> t.counts[r] == 1 && r <= t.top)
      && (t.decided.Some? && t.decided != t0.decided ==>
            a.Some? && a.value.value != "" && t.decided.value == a.value.value)
  {
  }

  /** With two servers or more, `na_count_map` never passes half of them: each rank is counted when it first leads,
      once. So a Prepare round takes as decided only a value that an answer reported as decided. */
  lemma {:induction false} DecidedWasReported(fix: Repairs, n: pos, v: string, h: int, a: seq<Option<PrepareReply>>)
    requires n >= 2
    ensures var t := TallyPrepare(fix, n, v, h, a);
      && (t.decided.Some? ==> WasReported(a, t.decided.value))
      && forall r :: r in t.counts ==> t.counts[r] == 1 && r <= t.top
  {
    if a == [] {
    } else {
      var last := |a| - 1;
      DecidedWasReported(fix, n, v, h, a[..last]);
      var t0 := TallyPrepare(fix, n, v, h, a[..last]);
      RanksCountOnce(fix, n, t0, a[last]);
      hide CountPrepare;
      if t0.decided.Some? {
        StillReported(a[..last], a, t0.decided.value);
      }
      if a[last].Some? && a[last].value.value != "" {
        assert WasReported(a, a[last].value.value);
      }
    }
  }
}
