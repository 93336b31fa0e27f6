/** Acceptor state only moves forward: what every handler keeps of one server, and every step of the whole cell. */
module Progress {
  import opened PaxosTypes
  import opened Handlers
  import opened Tallies
  import opened Cluster

  ghost predicate SlotForward(a: Slot, b: Slot) {
    && a.nP <= b.nP && a.nA <= b.nA && a.acceptedView <= b.acceptedView
    && (a.status == DECIDED ==> b.status == DECIDED && b.value == a.value)
  }

  ghost predicate ServerForward(a: Server, b: Server) {
    && a.me == b.me && a.numServers == b.numServers && a.lowestSlot == b.lowestSlot
    && a.view <= b.view && a.highestAcceptedSeq <= b.highestAcceptedSeq
    && forall q :: q in a.slots ==> q in b.slots && SlotForward(a.slots[q], b.slots[q])
  }

  ghost predicate SlotOk(view: int, slot: Slot) {
    slot.nA <= view && -1 <= slot.acceptedView <= view
  }

  /** `n_a <= view`, and the accepted view with it. */
  ghost predicate ServerOk(a: Server) {
    forall q :: q in a.slots ==> SlotOk(a.view, a.slots[q])
  }

  ghost predicate Moves(a: Server, b: Server) {
    ServerOk(a) ==> ServerOk(b) && ServerForward(a, b)
  }

  lemma PrepareMoves(fix: Repairs, a: Server, q: int, prop: int, view: int)
    ensures Moves(a, Prepare(fix, a, q, prop, view).0)
  {
  }

  lemma AcceptMoves(a: Server, q: int, view: int, v: string)
    ensures Moves(a, Accept(a, q, view, v).0)
    ensures ServerOk(a) && q >= a.lowestSlot ==>
              var r := Accept(a, q, view, v).1;
              r.Some? && (r.value.ok <==> view >= a.view)
  {
  }

  lemma LearnMoves(a: Server, q: int, v: string)
    ensures Moves(a, Learn(a, q, v))
    ensures q >= a.lowestSlot ==>
              var b := Learn(a, q, v);
              q in b.slots && b.slots[q].status == DECIDED && b.view == a.view
  {
  }

  lemma ElectMoves(a: Server, view: int)
    ensures Moves(a, Elect(a, view).0)
  {
  }

  lemma DetectMoves(a: Server)
    requires a.me < a.numServers
    ensures Moves(a, DetectLeaderFailure(a).0)
  {
  }

  lemma DecideAllMoves(a: Server, slots: map<int, string>)
    ensures Moves(a, DecideAll(a, slots))
  {
  }

  lemma MovesOn(a: Server, b: Server, d: Server)
    requires Moves(a, b) && Moves(b, d)
    ensures Moves(a, d)
  {
  }

  lemma SameSlotsMove(a: Server, b: Server)
    requires a.me == b.me && a.numServers == b.numServers && a.lowestSlot == b.lowestSlot && a.slots == b.slots
    requires a.view <= b.view && a.highestAcceptedSeq <= b.highestAcceptedSeq
    ensures Moves(a, b)
  {
  }

  lemma OneSlotMoves(a: Server, q: int, slot: Slot)
    requires q in a.slots && SlotForward(a.slots[q], slot)
    requires SlotOk(a.view, a.slots[q]) ==> SlotOk(a.view, slot)
    ensures Moves(a, a.(slots := a.slots[q := slot]))
  {
  }

  lemma HeartbeatMoves(a: Server, id: nat, view: int, done: seq<int>, slots: map<int, string>)
    ensures Moves(a, Heartbeat(a, id, view, done, slots).0)
  {
    var b := Adopt(a, view).(done := done, missedHeartbeats := 0);
    if id != a.me && a.view <= view {
      DecideAllMoves(b, slots);
      MovesOn(a, b, DecideAll(b, slots));
    }
  }

  /** What one step of the cell may do to everything that is only ever added to. */
  ghost predicate Forward(s: State, s': State) {
    && |s.servers| == |s'.servers|
    && (forall j :: 0 <= j < |s.servers| ==> ServerForward(s.servers[j], s'.servers[j]))
    && s.net <= s'.net && s.log <= s'.log
    && forall e :: e in s'.log && e !in s.log && e.Voted? ==>
         e.server < |s.servers| && s.servers[e.server].view <= e.view
  }

  ghost predicate AllOk(c: Cell, s: State) {
    && |s.servers| == c.n
    && forall j :: 0 <= j < c.n ==> ServerOk(s.servers[j]) && s.servers[j].me == j && s.servers[j].numServers == c.n
  }
}
