/** `Forget`: what a server may drop once every peer is done with it. */
module GarbageCollection {
  import opened PaxosTypes
  import opened Handlers

  function MinOf(done: seq<int>): (m: int)
    requires done != []
    ensures m in done && forall i :: 0 <= i < |done| ==> m <= done[i]
  {
    var last := done[|done| - 1];
    if |done| == 1 then last
    else
      var m := MinOf(done[..|done| - 1]);
      if last < m then last else m
  }

  function Forget(s: Server, peer: nat, peerDone: int): Server
    requires peer < |s.done|
  {
    var done := s.done[peer := Max(s.done[peer], peerDone)];
    var lowest := Max(s.lowestSlot, MinOf(done) + 1);
    s.(done := done, lowestSlot := lowest, slots := map q | q in s.slots && q >= lowest :: s.slots[q])
  }

  // ---- Over a run in which `done` changes only through Forget ----

  /** What can touch a slot or report it done. A handler refuses a slot below `lowestSlot`, but the slots of a heartbeat
      are copied, and `StartOnForward` touches its slot, without looking. */
  datatype Event = Report(peer: nat, upTo: int) | Use(q: int) | Copy(batch: map<int, string>) | Touch(q: int)

  function Handle(s: Server, e: Event): Server {
    match e
    case Report(peer, upTo) => if peer < |s.done| then Forget(s, peer, upTo) else s
    case Use(q) => if q < s.lowestSlot then s else AddSlots(s, q)
    case Copy(batch) => DecideAll(s, batch)
    case Touch(q) => AddSlots(s, q)
  }

  function HandleAll(s: Server, events: seq<Event>): Server {
    if events == [] then s else Handle(HandleAll(s, events[..|events| - 1]), events[|events| - 1])
  }

  /** The highest index that peer `p` has reported done, or -1. */
  function Reported(events: seq<Event>, p: nat): int {
    if events == [] then -1
    else
      var before := Reported(events[..|events| - 1], p);
      match events[|events| - 1]
      case Report(peer, upTo) => if peer == p then Max(before, upTo) else before
      case _ => before
  }

  ghost predicate ReportedByAll(s: Server, events: seq<Event>, q: int) {
    forall p :: 0 <= p < |s.done| ==> Reported(events, p) >= q
  }

  /** The event, in state `s`, leaves slot `q` in place if it was there, and puts it there if it was not. */
  ghost predicate Puts(s: Server, e: Event, q: int) {
    match e
    case Report(_, _) => false
    case Use(k) => k == q && q >= s.lowestSlot
    case Copy(batch) => q in batch
    case Touch(k) => k == q
  }

  ghost predicate Forgets(s: Server, e: Event) {
    e.Report? && e.peer < |s.done|
  }

  /** Slot `q` was put in place by event `k`. */
  ghost predicate PutBy(s: Server, events: seq<Event>, k: nat, q: int) {
    k < |events| && Puts(HandleAll(s, events[..k]), events[k], q)
  }

  /** No Forget came after event `k`. */
  ghost predicate LastsFrom(s: Server, events: seq<Event>, k: nat) {
    forall m :: k < m < |events| ==> !Forgets(s, events[m])
  }

  ghost predicate Fresh(s: Server) {
    s.done != [] && s.lowestSlot == 0 && s.slots == map[] && forall i :: 0 <= i < |s.done| ==> s.done[i] == -1
  }

  lemma MinRises(a: seq<int>, b: seq<int>)
    requires a != [] && |a| == |b| && forall i :: 0 <= i < |a| ==> a[i] <= b[i]
    ensures MinOf(a) <= MinOf(b)
  {
    var m := MinOf(b);
    var i :| 0 <= i < |b| && b[i] == m;
    assert MinOf(a) <= a[i];
  }

  lemma ForgetRaisesLowest(s: Server, peer: nat, upTo: int)
    requires peer < |s.done| && s.lowestSlot == 1 + MinOf(s.done)
    ensures var r := Forget(s, peer, upTo);
      && r.lowestSlot == 1 + MinOf(r.done) && |r.done| == |s.done|
      && forall p :: 0 <= p < |s.done| ==> r.done[p] == if p == peer then Max(s.done[p], upTo) else s.done[p]
  {
    MinRises(s.done, Forget(s, peer, upTo).done);
  }

  lemma {:induction false} DoneIsReported(s: Server, events: seq<Event>)
    requires Fresh(s)
    ensures var r := HandleAll(s, events);
      && |r.done| == |s.done|
      && (forall p :: 0 <= p < |r.done| ==> r.done[p] == Reported(events, p))
      && r.lowestSlot == 1 + MinOf(r.done)
  {
    if events == [] {
    } else {
      var last := |events| - 1;
      DoneIsReported(s, events[..last]);
      var before := HandleAll(s, events[..last]);
      match events[last] {
        case Report(peer, upTo) =>
          if peer < |before.done| {
            ForgetRaisesLowest(before, peer, upTo);
          }
        case _ =>
      }
    }
  }

  lemma HandleRaisesLowest(s: Server, e: Event)
    ensures s.lowestSlot <= Handle(s, e).lowestSlot
  {
  }

  lemma {:induction false} LowestRises(s: Server, events: seq<Event>, k: nat)
    requires k <= |events|
    ensures HandleAll(s, events[..k]).lowestSlot <= HandleAll(s, events).lowestSlot
  {
    hide Handle;
    if k == |events| {
      assert events[..k] == events;
    } else {
      var last := |events| - 1;
      assert events[..last][..k] == events[..k];
      LowestRises(s, events[..last], k);
      HandleRaisesLowest(HandleAll(s, events[..last]), events[last]);
    }
  }

  lemma LowestMeans(done: seq<int>, q: int)
    requires done != []
    ensures q < 1 + MinOf(done) <==> forall p :: 0 <= p < |done| ==> done[p] >= q
  {
    var m := MinOf(done);
    var i :| 0 <= i < |done| && done[i] == m;
  }

  lemma BelowMeansReported(s: Server, events: seq<Event>, q: int)
    requires Fresh(s)
    ensures q < HandleAll(s, events).lowestSlot <==> ReportedByAll(s, events, q)
  {
    DoneIsReported(s, events);
    LowestMeans(HandleAll(s, events).done, q);
  }

  /** Slot `q` was put in place, and nothing since is a reason to erase it. */
  ghost predicate Kept(s: Server, events: seq<Event>, q: int) {
    exists k: nat :: PutBy(s, events, k, q) && (LastsFrom(s, events, k) || !ReportedByAll(s, events, q))
  }

  /** A slot is there exactly when it was put there by an event after which no Forget came, or by any event as long as
      some peer has not reported it done. */
  lemma {:induction false} KeptExactly(s: Server, events: seq<Event>, q: int)
    requires Fresh(s)
    ensures q in HandleAll(s, events).slots <==> Kept(s, events, q)
  {
    if events == [] {
    } else {
      var last := |events| - 1;
      KeptExactly(s, events[..last], q);
      BelowMeansReported(s, events[..last], q);
      BelowMeansReported(s, events, q);
      PutsSameSlots(s, events, q);
      DoneIsReported(s, events[..last]);
      if Forgets(s, events[last]) {
        AfterForget(s, events, q);
      } else {
        AfterOther(s, events, q);
      }
    }
  }

  /** What put a slot in place in the events before the last one did so in all of them. */
  lemma PutsSameSlots(s: Server, events: seq<Event>, q: int)
    requires events != []
    ensures forall k :: 0 <= k < |events| - 1 ==> (PutBy(s, events[..|events| - 1], k, q) <==> PutBy(s, events, k, q))
  {
    forall k | 0 <= k < |events| - 1
      ensures PutBy(s, events[..|events| - 1], k, q) <==> PutBy(s, events, k, q)
    {
      assert events[..|events| - 1][..k] == events[..k];
    }
  }

  lemma AfterForget(s: Server, events: seq<Event>, q: int)
    requires events != [] && Forgets(s, events[|events| - 1])
    requires var before, after := HandleAll(s, events[..|events| - 1]), HandleAll(s, events);
      && |before.done| == |s.done|
      && (q < before.lowestSlot <==> ReportedByAll(s, events[..|events| - 1], q))
      && (q < after.lowestSlot <==> ReportedByAll(s, events, q))
      && (q in before.slots <==> Kept(s, events[..|events| - 1], q))
    requires forall k :: 0 <= k < |events| - 1 ==> (PutBy(s, events[..|events| - 1], k, q) <==> PutBy(s, events, k, q))
    ensures q in HandleAll(s, events).slots <==> Kept(s, events, q)
  {
    var last := |events| - 1;
    var prefix := events[..last];
    assert forall k :: 0 <= k < last ==> !LastsFrom(s, events, k);
    if Kept(s, prefix, q) && !ReportedByAll(s, events, q) {
      var k: nat :| PutBy(s, prefix, k, q) && (LastsFrom(s, prefix, k) || !ReportedByAll(s, prefix, q));
      assert PutBy(s, events, k, q);
    }
    if Kept(s, events, q) {
      var k: nat :| PutBy(s, events, k, q) && (LastsFrom(s, events, k) || !ReportedByAll(s, events, q));
      assert k != last && PutBy(s, prefix, k, q);
    }
  }

  lemma PutsWhatItSays(s: Server, e: Event, q: int)
    requires !Forgets(s, e)
    ensures q in Handle(s, e).slots <==> q in s.slots || Puts(s, e, q)
    ensures Handle(s, e).lowestSlot == s.lowestSlot
  {
  }

  lemma SameLasting(s: Server, events: seq<Event>)
    requires events != [] && !Forgets(s, events[|events| - 1])
    ensures var last := |events| - 1;
      && LastsFrom(s, events, last)
      && forall k :: 0 <= k < last ==> (LastsFrom(s, events[..last], k) <==> LastsFrom(s, events, k))
  {
    var last := |events| - 1;
    assert forall m :: 0 <= m < last ==> events[..last][m] == events[m];
  }

  lemma AfterOther(s: Server, events: seq<Event>, q: int)
    requires events != [] && !Forgets(s, events[|events| - 1])
    requires var before, after := HandleAll(s, events[..|events| - 1]), HandleAll(s, events);
      && |before.done| == |s.done|
      && (q < before.lowestSlot <==> ReportedByAll(s, events[..|events| - 1], q))
      && (q < after.lowestSlot <==> ReportedByAll(s, events, q))
      && (q in before.slots <==> Kept(s, events[..|events| - 1], q))
    requires forall k :: 0 <= k < |events| - 1 ==> (PutBy(s, events[..|events| - 1], k, q) <==> PutBy(s, events, k, q))
    ensures q in HandleAll(s, events).slots <==> Kept(s, events, q)
  {
    var last := |events| - 1;
    var prefix := events[..last];
    assert HandleAll(s, events) == Handle(HandleAll(s, prefix), events[last]);
    PutsWhatItSays(HandleAll(s, prefix), events[last], q);
    SameLasting(s, events);
    hide Handle, HandleAll, Puts, LastsFrom, ReportedByAll;
    assert q in HandleAll(s, events).slots <==> q in HandleAll(s, prefix).slots || PutBy(s, events, last, q);
    if Kept(s, prefix, q) {
      var k: nat :| PutBy(s, prefix, k, q) && (LastsFrom(s, prefix, k) || !ReportedByAll(s, prefix, q));
      assert PutBy(s, events, k, q);
    }
    if Kept(s, events, q) {
      var k: nat :| PutBy(s, events, k, q) && (LastsFrom(s, events, k) || !ReportedByAll(s, events, q));
      if k != last {
        assert PutBy(s, prefix, k, q);
      }
    }
  }

  /** A slot is never erased before every peer has reported it done, and only a Forget erases one. */
  lemma NeverErasedEarly(s: Server, events: seq<Event>, e: Event, q: int)
    requires Fresh(s) && q in HandleAll(s, events).slots && q !in HandleAll(s, events + [e]).slots
    ensures Forgets(s, e) && ReportedByAll(s, events + [e], q)
  {
    assert (events + [e])[..|events|] == events;
    DoneIsReported(s, events);
    BelowMeansReported(s, events + [e], q);
  }

  /** Right after a Forget, nothing is left of what every peer has reported done. */
  lemma ForgetErasesAll(s: Server, events: seq<Event>, e: Event, q: int)
    requires Fresh(s) && Forgets(s, e) && ReportedByAll(s, events + [e], q)
    ensures q !in HandleAll(s, events + [e]).slots
  {
    assert (events + [e])[..|events|] == events;
    DoneIsReported(s, events);
    BelowMeansReported(s, events + [e], q);
  }

  /** A slot that every peer has reported done is there exactly when a heartbeat's copy or a forward put it back after
      the last Forget. */
  lemma CollectedSlotIsBackExactlyWhen(s: Server, events: seq<Event>, q: int)
    requires Fresh(s) && ReportedByAll(s, events, q)
    ensures q in HandleAll(s, events).slots <==>
              exists k :: 0 <= k < |events| && LastsFrom(s, events, k)
                          && (events[k] == Touch(q) || (events[k].Copy? && q in events[k].batch))
  {
    KeptExactly(s, events, q);
    BelowMeansReported(s, events, q);
    forall k: nat | PutBy(s, events, k, q) && LastsFrom(s, events, k)
      ensures !events[k].Use?
    {
      SameLowest(s, events, k);
    }
    forall k | 0 <= k < |events| && (events[k] == Touch(q) || (events[k].Copy? && q in events[k].batch))
      ensures PutBy(s, events, k, q)
    {
    }
  }

  /** Without a Forget `lowestSlot` stays where it is. */
  lemma {:induction false} SameLowest(s: Server, events: seq<Event>, k: nat)
    requires Fresh(s) && k < |events| && !Forgets(s, events[k]) && LastsFrom(s, events, k)
    ensures HandleAll(s, events).lowestSlot == HandleAll(s, events[..k]).lowestSlot
  {
    var last := |events| - 1;
    DoneIsReported(s, events[..last]);
    hide Handle, Fresh;
    PutsWhatItSays(HandleAll(s, events[..last]), events[last], 0);
    if k == last {
    } else {
      assert events[..last][..k] == events[..k];
      SameLasting(s, events);
      SameLowest(s, events[..last], k);
    }
  }

  /** It does come back: the leader forgets slot 0, and the next heartbeat's answer of a peer that has not puts it back. */
  lemma CollectedSlotComesBack(s: Server, v: string) returns (events: seq<Event>)
    requires Fresh(s) && |s.done| == 2
    ensures ReportedByAll(s, events, 0) && HandleAll(s, events).lowestSlot == 1 && 0 in HandleAll(s, events).slots
  {
    var forgotten := [Use(0), Report(0, 0), Report(1, 0)];
    events := forgotten + [Copy(map[0 := v])];
    assert forgotten[..2][..1] == [Use(0)] && forgotten[..2] == [Use(0), Report(0, 0)];
    assert Reported([Use(0)], 0) == -1 == Reported([Use(0)], 1);
    assert Reported(forgotten[..2], 0) == 0 && Reported(forgotten[..2], 1) == -1;
    assert Reported(forgotten, 0) == 0 == Reported(forgotten, 1);
    assert events[..3] == forgotten;
    DoneIsReported(s, events);
    assert HandleAll(s, events).done == [0, 0];
    assert HandleAll(s, events).slots == DecideAll(HandleAll(s, forgotten), map[0 := v]).slots;
  }
}
