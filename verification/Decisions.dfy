/** What each handler adds to the slots a server holds as decided. */
module Decisions {
  import opened PaxosTypes
  import opened Handlers

  lemma SameDecisions(r: Server, r1: Server, q: int, slot: Slot)
    requires r1.slots == r.slots[q := slot]
    requires slot.status == Touched(r, q).status && slot.value == Touched(r, q).value
    ensures r1.Decided() == r.Decided()
  {
    assert forall k :: k in r1.Decided() <==> k in r.Decided();
    assert forall k :: k in r.Decided() ==> r1.Decided()[k] == r.Decided()[k];
  }

  lemma PrepareDecidesNothing(fix: Repairs, r: Server, q: int, prop: int, view: int)
    ensures Prepare(fix, r, q, prop, view).0.Decided() == r.Decided()
  {
    if q >= r.lowestSlot {
      var b := Prepare(fix, r, q, prop, view).0;
      assert b.slots == r.slots[q := b.slots[q]];
      SameDecisions(r, b, q, b.slots[q]);
    }
  }

  lemma AcceptDecidesNothing(r: Server, q: int, view: int, v: string)
    ensures Accept(r, q, view, v).0.Decided() == r.Decided()
  {
    if q >= r.lowestSlot {
      var a := Accept(r, q, view, v).0;
      assert a.slots == r.slots[q := a.slots[q]];
      SameDecisions(r, a, q, a.slots[q]);
    }
  }

  lemma StartDecidesNothing(r: Server, q: int)
    ensures Start(r, q).0.Decided() == r.Decided()
  {
    if q >= r.lowestSlot {
      SameDecisions(r, Start(r, q).0, q, Start(r, q).0.slots[q]);
    }
  }

  lemma PassOnDecidesNothing(r: Server, q: int)
    ensures StartOnForward(r, q).0.Decided() == r.Decided()
  {
    SameDecisions(r, StartOnForward(r, q).0, q, StartOnForward(r, q).0.slots[q]);
  }

  lemma BatchDecides(r: Server, decided: map<int, string>)
    ensures DecideAll(r, decided).Decided() == decided + r.Decided()
  {
  }

  lemma LearnDecides(r: Server, q: int, v: string)
    ensures Learn(r, q, v).Decided() == if q < r.lowestSlot then r.Decided() else map[q := v] + r.Decided()
  {
    if q >= r.lowestSlot {
      var r1 := Learn(r, q, v);
      assert r1.slots == r.slots[q := DecidedSlot(r, q, v)];
      assert forall k :: k in r1.Decided() <==> k == q || k in r.Decided();
      assert forall k :: k in r.Decided() ==> r1.Decided()[k] == r.Decided()[k];
      assert q !in r.Decided() ==> r1.Decided()[q] == v;
    }
  }

  lemma HeartbeatDecides(r: Server, id: nat, view: int, done: seq<int>, decided: map<int, string>)
    ensures var (r1, a) := Heartbeat(r, id, view, done, decided);
      && (r1.Decided() == r.Decided() || r1.Decided() == decided + r.Decided())
      && (a.Some? ==> a.value == r.Decided() - decided.Keys)
  {
    BatchDecides(Adopt(r, view).(done := done, missedHeartbeats := 0), decided);
    assert Adopt(r, view).(done := done, missedHeartbeats := 0).Decided() == r.Decided();
  }
}
