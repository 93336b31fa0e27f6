/** What each RPC handler of `PaxosImpl` does to the fields of its server, as functions.
    The class in PaxosImpl.dfy is proved to compute these functions with `AS_WRITTEN`. */
module Handlers {
  import opened PaxosTypes

  /** A view owned by server `v % n` makes that server the leader. */
  function Owner(v: nat, n: pos): (i: nat)
    ensures i < n
  {
    v % n
  }

  function InitSlot(view: int): Slot {
    Slot(view, -1, view, "", view, "", PENDING, -1)
  }

  function Touched(s: Server, q: int): Slot {
    (if q in s.slots then s.slots[q] else InitSlot(s.view)).(nA := s.view)
  }

  function AddSlots(s: Server, q: int): Server {
    s.(slots := s.slots[q := Touched(s, q)])
  }

  /** Moving to a higher view resets the failure detector. */
  function Adopt(s: Server, view: int): Server {
    if view > s.view then s.(view := view, leaderDead := false, missedHeartbeats := 0) else s
  }

  function Elect(s: Server, view: int): (Server, ElectReply) {
    var r := Adopt(s, view);
    if view >= s.view then (r, ElectReply(true, r.view, s.highestAcceptedSeq)) else (r, ElectReply(false, s.view, 0))
  }

  function DecidedValue(slot: Slot): string {
    if slot.status == DECIDED then slot.value else ""
  }

  /** No reply means the INVALID_ARGUMENT status of a garbage-collected slot. */
  function Prepare(fix: Repairs, s: Server, q: int, n: int, view: int): (Server, Option<PrepareReply>) {
    if q < s.lowestSlot then
      (s, None)
    else
      var s1 := AddSlots(if fix.promiseViews then Adopt(s, view) else s, q);
      var slot := s1.slots[q];
      var ok := n > slot.nP && (fix.promiseViews ==> view >= s.view);
      var slot1 := if ok then slot.(nP := n) else slot;
      (s1.(slots := s1.slots[q := slot1]),
       Some(PrepareReply(ok, slot.nA, slot.vA, slot1.nP, DecidedValue(slot), s.LatestDone(), slot.acceptedView)))
  }

  function Accept(s: Server, q: int, view: int, value: string): (Server, Option<AcceptReply>) {
    if q < s.lowestSlot then
      (s, None)
    else
      var s1 := Adopt(AddSlots(s, q), view);
      var slot := s1.slots[q];
      var ok := view >= slot.nA;
      var s2 := if ok then
                  s1.(slots := s1.slots[q := slot.(nA := view, vA := value, acceptedView := view)],
                      highestAcceptedSeq := Max(s1.highestAcceptedSeq, q))
                else s1;
      (s2, Some(AcceptReply(ok, slot.nA, DecidedValue(slot), s.LatestDone())))
  }

  /** `getKeyValue`: split at the first '#'; no key means the exception. */
  function FirstHash(kv: string): (k: nat)
    ensures k <= |kv| && (k < |kv| ==> kv[k] == '#') && forall i :: 0 <= i < k ==> kv[i] != '#'
  {
    if kv == "" || kv[0] == '#' then 0 else 1 + FirstHash(kv[1..])
  }

  function GetKeyValue(kv: string): Option<(string, string)> {
    var k := FirstHash(kv);
    if k == |kv| then None else Some((kv[..k], kv[k + 1..]))
  }

  function ApplyToDb(db: map<string, string>, kv: string): map<string, string> {
    match GetKeyValue(kv)
    case None => db
    case Some(p) => db[p.0 := p.1]
  }

  function DecidedSlot(s: Server, q: int, value: string): Slot {
    var slot := Touched(s, q);
    if slot.status == DECIDED then slot else slot.(status := DECIDED, value := value)
  }

  function Decide(s: Server, q: int, value: string): Server {
    s.(slots := s.slots[q := DecidedSlot(s, q, value)])
  }

  function Learn(s: Server, q: int, value: string): Server {
    if q < s.lowestSlot then s
    else
      var s1 := Decide(s, q, value);
      if q in s.slots && s.slots[q].status == DECIDED then s1 else s1.(db := ApplyToDb(s.db, value))
  }

  /** Copy a batch of decided slots, as both ends of a heartbeat do; the database is not written. */
  function DecideAll(s: Server, slots: map<int, string>): Server {
    s.(slots := map k | k in s.slots.Keys + slots.Keys :: 
                    if k in slots then DecidedSlot(s, k, slots[k]) else s.slots[k])
  }

  /** No reply means that nothing is sent back to copy: the request is our own, or its view is below ours. */
  function Heartbeat(s: Server, id: nat, view: int, done: seq<int>, slots: map<int, string>)
    : (Server, Option<map<int, string>>)
  {
    if id == s.me then
      (s.(missedHeartbeats := 0), None)
    else if s.view > view then
      (s, None)
    else
      var s1 := Adopt(s, view).(done := done, missedHeartbeats := 0);
      (DecideAll(s1, slots), Some(s.Decided() - slots.Keys))
  }

  /** What `Start` and `StartOnForward` do next. */
  datatype StartAction = Ignore | Propose(view: nat) | ForwardToLeader

  function Start(s: Server, q: int): (Server, StartAction) {
    if q < s.lowestSlot then
      (s, Ignore)
    else
      var s1 := AddSlots(s, q);
      (s1,
       if s1.slots[q].status == DECIDED then Ignore
       else if Owner(s.view, s.numServers) != s.me then ForwardToLeader
       else if s.leaderDead then Ignore
       else Propose(s.view))
  }

  /** `StartOnForward` looks again, at any slot, and forwards even one that is decided. */
  function StartOnForward(s: Server, q: int): (Server, StartAction) {
    var s1 := AddSlots(s, q);
    (s1,
     if s1.slots[q].status != DECIDED && Owner(s.view, s.numServers) == s.me && !s.leaderDead then Propose(s.view)
     else ForwardToLeader)
  }

  /** The view `DetectLeaderFailure` stands for: the offset is taken around the ring of servers. */
  function Candidacy(view: nat, me: nat, n: pos): int
    requires me < n
  {
    var mod := Owner(view, n);
    if mod < me then view + (me - mod) else view + (me + n - mod)
  }

  function DetectLeaderFailure(s: Server): (Server, Option<nat>)
    requires s.me < s.numServers
  {
    var missed := s.missedHeartbeats + 1;
    if missed > 3 then
      (s.(missedHeartbeats := 0, leaderDead := true, electionHappened := true),
       if Owner(s.view, s.numServers) == s.me then None else Some(Candidacy(s.view, s.me, s.numServers)))
    else
      (s.(missedHeartbeats := missed), None)
  }

  /** `while (slot->n <= slot->highest_N) slot->n += num_servers`. */
  function AdvanceN(n: int, highestN: int, step: pos): (r: int)
    ensures r > highestN && r >= n
    decreases highestN - n
  {
    if n <= highestN then AdvanceN(n + step, highestN, step) else n
  }
}
